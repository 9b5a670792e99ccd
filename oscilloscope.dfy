/** The capture-setup handlers of oscilloscope.c. The firmware's globals
    (reached through its `Set*` / `Get*` accessors) are the fields of one
    `Scope` object, the peripherals the handlers program are
    `Adc`, `Dma` and `Timer` records of the values passed to the drivers, UART
    input bytes are parameters, and UART output is a returned sequence. */
module Oscilloscope {
  import opened Bus
  import opened ChipSelect
  import opened PgaGain

  /** Number of entries of `BUFFER_IDX`: one write cursor per ADC channel. */
  const MAX_CHANNELS: nat := 4

  /** The TMR5 prescaler `TMR_PRESCALER_8`, as the divisor it selects. */
  const TIMER_PRESCALE_8: nat := 8

  datatype AdcMode = Adc10BitSimultaneous | Adc10BitDma | Adc12BitDma

  /** An address handed to the DMA engine: a uint16 of `BUFFER`, or the ADC
      result register `ADC1BUF0`. */
  datatype DmaAddress = BufferWord(offset: nat) | Adc1Buf0

  /** What the handlers have passed to the ADC1 driver. */
  datatype Adc = Adc(mode: AdcMode, ch0Source: byte, ch123Source: byte, channels: nat,
                     interruptFlag: bool, interruptEnabled: bool)

  /** What the handlers have passed to the driver of DMA channel 0. */
  datatype Dma = Dma(start: DmaAddress, peripheral: DmaAddress, count: uint16,
                     interruptFlag: bool, interruptEnabled: bool, channelEnabled: bool)

  /** What the handlers have passed to the TMR5 driver. */
  datatype Timer = Timer(period: uint16, prescaler: nat, stopInIdle: bool,
                         interruptFlag: bool, interruptEnabled: bool, running: bool)

  /** The fields of the capture configuration byte. */
  datatype CaptureConfig = CaptureConfig(ch0Source: byte, ch123Source: byte, trigger: bool)

  /** Bits 3..0 pick channel 0's sample-and-hold input, bit 4 the shared
      input of channels 1..3, bit 7 requests a trigger; bits 5 and 6 are
      ignored. */
  function DecodeCaptureConfig(config: byte): (c: CaptureConfig)
    ensures c.ch0Source < 0x10
    ensures c.ch123Source == 0 || c.ch123Source == 0x10
    ensures c.trigger <==> config >= 0x80
    ensures c.ch0Source | c.ch123Source | (if c.trigger then 0x80 else 0) == config & 0x9F
  {
    CaptureConfig(config & 0x0F, config & 0x10, config & 0x80 != 0)
  }

  /** Changing the ignored bits 5 and 6 never changes the configuration. */
  lemma DecodeCaptureConfigIgnoresBits5And6(config: byte, other: byte)
    requires config & 0x9F == other & 0x9F
    ensures DecodeCaptureConfig(config) == DecodeCaptureConfig(other)
  {
  }

  /** The DMA path's resolution: 12-bit iff bit 7 of the configuration byte is set. */
  function DmaMode(config: byte): (m: AdcMode)
    ensures m == Adc12BitDma <==> config & 0x80 != 0
    ensures m == Adc10BitDma <==> config & 0x80 == 0
  {
    if config & 0x80 != 0 then Adc12BitDma else Adc10BitDma
  }

  /** The fields of the trigger configuration byte. */
  datatype TriggerConfig = TriggerConfig(channel: byte, prescaler: byte)

  /** The low nibble is the trigger channel, the high nibble the prescaler. */
  function DecodeTriggerConfig(config: byte): (c: TriggerConfig)
    ensures c.channel <= 15 && c.prescaler <= 15
    ensures c.channel | (c.prescaler << 4) == config
  {
    TriggerConfig(config & 0x0F, config >> 4)
  }

  /** `x - 1` in 16 bits, the value written both to the DMA transfer count
      (transfers after the first) and to the 16-bit timer period: exact for
      every `x >= 1`, wrapping to 0xFFFF for 0. */
  function MinusOne16(x: uint16): (r: uint16)
    ensures x >= 1 ==> r == x - 1
    ensures x == 0 ==> r == 0xFFFF
  {
    if x == 0 then 0xFFFF else x - 1
  }

  /** Slot `k` of `BUFFER` lies in the segment of channel `i` when segments
      are `samples` long. */
  ghost predicate InSegment(k: nat, i: nat, samples: nat)
  {
    i * samples <= k < i * samples + samples
  }

  /** Segments never overlap: the segment of channel `i` ends no later than
      that of any later channel `j` starts. */
  lemma SegmentsDisjoint(i: nat, j: nat, samples: nat)
    requires i < j
    ensures i * samples + samples <= j * samples
  {
    MulMonotone(i + 1, j, samples);
    assert (i + 1) * samples == i * samples + samples;
  }

  /** Each slot belongs to at most one segment. */
  lemma SegmentOwnerUnique(k: nat, i: nat, j: nat, samples: nat)
    requires InSegment(k, i, samples) && InSegment(k, j, samples)
    ensures i == j
  {
    MulMonotone(i + 1, j, samples);
    MulMonotone(j + 1, i, samples);
    assert (i + 1) * samples == i * samples + samples;
    assert (j + 1) * samples == j * samples + samples;
  }

  /** Segments are contiguous: every slot below `(channels + 1) * samples`
      belongs to the segment of channel `k / samples`, which is active. */
  lemma SegmentsCover(k: nat, channels: nat, samples: nat)
    requires k < channels * samples + samples
    ensures samples > 0
    ensures InSegment(k, k / samples, samples) && k / samples <= channels
  {
    MulMonotone(1, channels + 1, samples);
    assert (channels + 1) * samples == channels * samples + samples;
    assert channels * 0 == 0;
    var q := k / samples;
    assert k == q * samples + k % samples;
    MulMonotone(channels + 1, q, samples);
  }

  lemma MulMonotone(a: nat, b: nat, c: nat)
    ensures a <= b ==> a * c <= b * c
  {
  }

  /** The TMR5 state `SetTimeGap` leaves for a delay: period `DELAY - 1`,
      prescaler 8, stopped in idle, interrupt flag clear and interrupt
      disabled (the timer only paces the ADC), running. */
  function PacingTimer(delayTicks: uint16): (t: Timer)
    ensures t.period == MinusOne16(delayTicks)
    ensures delayTicks >= 1 ==> t.period == delayTicks - 1
    ensures t.prescaler == TIMER_PRESCALE_8 && t.stopInIdle && t.running
    ensures !t.interruptFlag && !t.interruptEnabled
  {
    Timer(MinusOne16(delayTicks), TIMER_PRESCALE_8, true, false, false, true)
  }

  /** The DMA channel 0 set-up of `OSCILLOSCOPE_CaptureDMA`: from `ADC1BUF0`
      to the start of `BUFFER`, `samples - 1` transfers after the first,
      completion interrupt armed, channel enabled. */
  function DmaToBuffer(samples: uint16): (d: Dma)
    ensures d.start == BufferWord(0) && d.peripheral == Adc1Buf0
    ensures d.count == MinusOne16(samples)
    ensures samples >= 1 ==> d.count == samples - 1
    ensures !d.interruptFlag && d.interruptEnabled && d.channelEnabled
  {
    Dma(BufferWord(0), Adc1Buf0, MinusOne16(samples), false, true, true)
  }

  class Scope {
    // Session and channel configuration
    var channels: nat
    var samplesRequested: uint16
    var delay: uint16
    var bufferIdx: array<nat>
    var conversionDone: bool
    var samplesCaptured: uint16
    // Trigger state
    var triggered: bool
    var triggerWaiting: bool
    var triggerReady: bool
    var triggerChannel: byte
    var triggerPrescaler: byte
    var triggerLevel: uint16
    // Peripherals, as the values passed to their drivers
    var adc: Adc
    var dma: Dma
    var timer: Timer
    var cs: CsPins

    ghost predicate Valid()
      reads this
    {
      bufferIdx.Length == MAX_CHANNELS && channels < MAX_CHANNELS
    }

    /** The globals start zeroed; the peripherals start in the given state. */
    constructor (adc0: Adc, dma0: Dma, timer0: Timer, cs0: CsPins)
      ensures Valid() && fresh(bufferIdx)
      ensures adc == adc0 && dma == dma0 && timer == timer0 && cs == cs0
      ensures channels == 0 && samplesRequested == 0 && delay == 0
      ensures !conversionDone && samplesCaptured == 0
      ensures !triggered && !triggerWaiting && !triggerReady
      ensures triggerChannel == 0 && triggerPrescaler == 0 && triggerLevel == 0
      ensures forall i :: 0 <= i < MAX_CHANNELS ==> bufferIdx[i] == 0
    {
      channels, samplesRequested, delay := 0, 0, 0;
      bufferIdx := new nat[MAX_CHANNELS](_ => 0);
      conversionDone, samplesCaptured := false, 0;
      triggered, triggerWaiting, triggerReady := false, false, false;
      triggerChannel, triggerPrescaler, triggerLevel := 0, 0, 0;
      adc, dma, timer, cs := adc0, dma0, timer0, cs0;
    }

    /** Every segment start that `Capture` writes, in terms of the request:
        channel `i` owns `BUFFER[i * SAMPLES_REQUESTED ..]`. */
    ghost predicate SegmentsLaidOut()
      reads this, bufferIdx
      requires Valid()
    {
      forall i :: 0 <= i <= channels ==> bufferIdx[i] == i * samplesRequested
    }

    /** The state `Capture` leaves, relative to the state it started from,
        once `CHANNELS` has been chosen; the fields it does not set (the
        trigger configuration, DMA and chip selects) are left alone by the
        methods' frames. */
    twostate predicate InterruptCaptureArmed(config: byte, samples: uint16, delayTicks: uint16)
      reads this, bufferIdx
      requires Valid()
      requires old(bufferIdx) == bufferIdx && old(bufferIdx.Length) == MAX_CHANNELS
    {
      var c := DecodeCaptureConfig(config);
      && samplesRequested == samples && delay == delayTicks
      // trigger armed, or bypassed
      && (c.trigger ==> !triggerWaiting && !triggerReady && !triggered)
      && (!c.trigger ==> triggered && triggerWaiting == old(triggerWaiting)
                                   && triggerReady == old(triggerReady))
      // one contiguous segment per active channel; later cursors untouched
      && SegmentsLaidOut() && bufferIdx[0] == 0
      && (forall i :: channels < i < MAX_CHANNELS ==> bufferIdx[i] == old(bufferIdx[i]))
      // fresh session
      && !conversionDone && samplesCaptured == 0
      // simultaneous 10-bit sampling of CHANNELS + 1 inputs, interrupt per sample
      && adc == Adc(Adc10BitSimultaneous, c.ch0Source, c.ch123Source, channels, false, true)
      && timer == PacingTimer(delayTicks)
    }

    /** `OSCILLOSCOPE_CaptureOne` .. `OSCILLOSCOPE_CaptureFour` select
        `count - 1` as `CHANNELS` and then run `Capture`. */
    method CaptureOne(config: byte, samples: uint16, delayTicks: uint16)
      requires Valid()
      modifies this`channels, this`samplesRequested, this`delay, this`adc, this`triggered,
               this`triggerWaiting, this`triggerReady, this`conversionDone,
               this`samplesCaptured, this`timer, bufferIdx
      ensures Valid() && channels == 0
      ensures InterruptCaptureArmed(config, samples, delayTicks)
    {
      channels := 0;
      Capture(config, samples, delayTicks);
    }

    method CaptureTwo(config: byte, samples: uint16, delayTicks: uint16)
      requires Valid()
      modifies this`channels, this`samplesRequested, this`delay, this`adc, this`triggered,
               this`triggerWaiting, this`triggerReady, this`conversionDone,
               this`samplesCaptured, this`timer, bufferIdx
      ensures Valid() && channels == 1
      ensures InterruptCaptureArmed(config, samples, delayTicks)
    {
      channels := 1;
      Capture(config, samples, delayTicks);
    }

    method CaptureThree(config: byte, samples: uint16, delayTicks: uint16)
      requires Valid()
      modifies this`channels, this`samplesRequested, this`delay, this`adc, this`triggered,
               this`triggerWaiting, this`triggerReady, this`conversionDone,
               this`samplesCaptured, this`timer, bufferIdx
      ensures Valid() && channels == 2
      ensures InterruptCaptureArmed(config, samples, delayTicks)
    {
      channels := 2;
      Capture(config, samples, delayTicks);
    }

    method CaptureFour(config: byte, samples: uint16, delayTicks: uint16)
      requires Valid()
      modifies this`channels, this`samplesRequested, this`delay, this`adc, this`triggered,
               this`triggerWaiting, this`triggerReady, this`conversionDone,
               this`samplesCaptured, this`timer, bufferIdx
      ensures Valid() && channels == 3
      ensures InterruptCaptureArmed(config, samples, delayTicks)
    {
      channels := 3;
      Capture(config, samples, delayTicks);
    }

    /** The shared body of the four interrupt-path handlers. */
    method Capture(config: byte, samples: uint16, delayTicks: uint16)
      requires Valid()
      modifies this`samplesRequested, this`delay, this`adc, this`triggered,
               this`triggerWaiting, this`triggerReady, this`conversionDone,
               this`samplesCaptured, this`timer, bufferIdx
      ensures Valid()
      ensures InterruptCaptureArmed(config, samples, delayTicks)
    {
      samplesRequested := samples;
      delay := delayTicks;
      var c := DecodeCaptureConfig(config);
      SelectSimultaneousMode(c);
      ArmOrBypassTrigger(c.trigger);
      LaySegments();
      ResetSession();
      SetTimeGap();
      EnableAdcInterrupt();
    }

    /** `ADC1_SetOperationMode` and `ADC1_ConversionChannelsSet` of `Capture`. */
    method SelectSimultaneousMode(c: CaptureConfig)
      modifies this`adc
      ensures adc == old(adc).(mode := Adc10BitSimultaneous, ch0Source := c.ch0Source,
                               ch123Source := c.ch123Source, channels := channels)
    {
      adc := adc.(mode := Adc10BitSimultaneous, ch0Source := c.ch0Source,
                  ch123Source := c.ch123Source);
      adc := adc.(channels := channels);
    }

    /** Arms the trigger when bit 7 of the configuration asks for one;
        otherwise marks it as already fired, so sampling starts at once. */
    method ArmOrBypassTrigger(trigger: bool)
      modifies this`triggerWaiting, this`triggerReady, this`triggered
      ensures trigger ==> !triggerWaiting && !triggerReady && !triggered
      ensures !trigger ==> triggered && triggerWaiting == old(triggerWaiting)
                                     && triggerReady == old(triggerReady)
    {
      if trigger {
        ResetTrigger();
      } else {
        triggered := true;
      }
    }

    /** Clears the session and points the first cursor at `BUFFER[0]`. */
    method ResetSession()
      requires Valid()
      modifies this`conversionDone, this`samplesCaptured, bufferIdx
      ensures !conversionDone && samplesCaptured == 0 && bufferIdx[0] == 0
      ensures forall i :: 1 <= i < MAX_CHANNELS ==> bufferIdx[i] == old(bufferIdx[i])
    {
      conversionDone := false;
      samplesCaptured := 0;
      bufferIdx[0] := 0;
    }

    /** `ADC1_InterruptFlagClear` then `ADC1_InterruptEnable`. */
    method EnableAdcInterrupt()
      modifies this`adc
      ensures adc == old(adc).(interruptFlag := false, interruptEnabled := true)
    {
      adc := adc.(interruptFlag := false);
      adc := adc.(interruptEnabled := true);
    }

    /** The `for` loop of `Capture`: cursor `i` of every active channel is
        pointed at `BUFFER[i * SAMPLES_REQUESTED]`. */
    method LaySegments()
      requires Valid()
      modifies bufferIdx
      ensures SegmentsLaidOut()
      ensures forall i :: channels < i < MAX_CHANNELS ==> bufferIdx[i] == old(bufferIdx[i])
    {
      var i := 0;
      while i <= channels
        invariant 0 <= i <= channels + 1
        invariant forall k :: 0 <= k < i ==> bufferIdx[k] == k * samplesRequested
        invariant forall k :: i <= k < MAX_CHANNELS ==> bufferIdx[k] == old(bufferIdx[k])
      {
        bufferIdx[i] := i * samplesRequested;
        i := i + 1;
      }
    }

    /** `OSCILLOSCOPE_CaptureDMA`: one channel, moved by DMA channel 0, with
        the session marked complete as soon as the transfer is armed. */
    method CaptureDMA(config: byte, samples: uint16, delayTicks: uint16)
      requires Valid()
      modifies this`samplesRequested, this`delay, this`channels, this`adc, this`dma,
               this`samplesCaptured, this`conversionDone, this`timer
      ensures Valid() && channels == 0
      ensures samplesRequested == samples && delay == delayTicks
      ensures samplesCaptured == samples && conversionDone
      ensures adc == old(adc).(mode := DmaMode(config), ch0Source := config & 0x0F, ch123Source := 0)
      ensures dma == DmaToBuffer(samples)
      ensures timer == PacingTimer(delayTicks)
    {
      samplesRequested := samples;
      delay := delayTicks;
      var ch0Source := config & 0x0F;
      var mode := DmaMode(config);
      channels := 0;
      adc := adc.(mode := mode, ch0Source := ch0Source, ch123Source := 0);
      ArmDma();
      samplesCaptured := samplesRequested;
      conversionDone := true;
      SetTimeGap();
    }

    /** The DMA driver calls of `OSCILLOSCOPE_CaptureDMA`. */
    method ArmDma()
      modifies this`dma
      ensures dma == DmaToBuffer(samplesRequested)
    {
      dma := dma.(start := BufferWord(0));
      dma := dma.(peripheral := Adc1Buf0);
      dma := dma.(count := MinusOne16(samplesRequested));
      dma := dma.(interruptFlag := false);
      dma := dma.(interruptEnabled := true);
      dma := dma.(channelEnabled := true);
    }

    /** `ResetTrigger`: back to waiting for the trigger condition. */
    method ResetTrigger()
      modifies this`triggerWaiting, this`triggerReady, this`triggered
      ensures !triggerWaiting && !triggerReady && !triggered
    {
      triggerWaiting := false;
      triggerReady := false;
      triggered := false;
    }

    /** `SetTimeGap`: TMR5 paces the samples at `DELAY - 1` ticks of the
        prescaled clock. */
    method SetTimeGap()
      modifies this`timer
      ensures timer == PacingTimer(delay)
    {
      timer := timer.(stopInIdle := true);
      timer := timer.(period := MinusOne16(delay));
      timer := timer.(prescaler := TIMER_PRESCALE_8);
      timer := timer.(interruptFlag := false);
      timer := timer.(interruptEnabled := false);
      timer := timer.(running := true);
    }

    /** `OSCILLOSCOPE_GetCaptureStatus`: the done flag as a byte, then the
        captured count as an int; nothing changes. */
    method GetCaptureStatus() returns (out: seq<UartWrite>)
      ensures |out| == 2
      ensures out[0] == WriteByte(if conversionDone then 1 else 0)
      ensures out[1] == WriteInt(samplesCaptured)
    {
      out := [WriteByte(if conversionDone then 1 else 0)];
      out := out + [WriteInt(samplesCaptured)];
    }

    /** `OSCILLOSCOPE_ConfigureTrigger`: stores the trigger channel, the
        prescaler and the level; the trigger flags are left alone. */
    method ConfigureTrigger(config: byte, level: uint16)
      modifies this`triggerChannel, this`triggerPrescaler, this`triggerLevel
      ensures triggerChannel == DecodeTriggerConfig(config).channel
      ensures triggerPrescaler == DecodeTriggerConfig(config).prescaler
      ensures triggerLevel == level
    {
      var c := DecodeTriggerConfig(config);
      triggerChannel := c.channel;
      triggerPrescaler := c.prescaler;
      triggerLevel := level;
    }

    /** `OSCILLOSCOPE_SetPGAGain`: sends the resistor setting for `gain` to
        the potentiometer of `channel`, leaving the chip select released. */
    method SetPGAGain(channel: byte, gain: byte) returns (trace: seq<BusEvent>)
      modifies this`cs
      ensures trace == PgaGainTrace(channel, gain)
      ensures cs == UnsetCS()
    {
      var resistor := GainResistor(gain);
      trace := [SpiClose, SpiOpen(PgaConfig)];
      cs := SetCS(channel);
      trace := trace + [SelectPins(cs), SpiExchangeByte(resistor)];
      cs := UnsetCS();
      trace := trace + [SelectPins(cs), SpiClose];
    }
  }

  /** Host-visible outcome of an interrupt-path capture of `count` channels
      on a freshly reset instrument, polled right after arming: the session
      is reported as not done with nothing captured, and the cursors start
      `samples` apart from `BUFFER[0]` onwards. */
  method InterruptCaptureScenario(adc0: Adc, dma0: Dma, timer0: Timer, cs0: CsPins,
                                  count: nat, config: byte, samples: uint16, delayTicks: uint16)
    returns (status: seq<UartWrite>, cursors: seq<nat>)
    requires 1 <= count <= MAX_CHANNELS
    ensures status == [WriteByte(0), WriteInt(0)]
    ensures |cursors| == count
    ensures forall i :: 0 <= i < count ==> cursors[i] == i * samples
  {
    var scope := new Scope(adc0, dma0, timer0, cs0);
    if count == 1 {
      scope.CaptureOne(config, samples, delayTicks);
    } else if count == 2 {
      scope.CaptureTwo(config, samples, delayTicks);
    } else if count == 3 {
      scope.CaptureThree(config, samples, delayTicks);
    } else {
      scope.CaptureFour(config, samples, delayTicks);
    }
    status := scope.GetCaptureStatus();
    cursors := scope.bufferIdx[..count];
  }

  /** Host-visible outcome of a DMA capture on a freshly reset instrument:
      the session reports done with every requested sample captured as soon
      as the transfer is armed. */
  method DmaCaptureScenario(adc0: Adc, dma0: Dma, timer0: Timer, cs0: CsPins,
                            config: byte, samples: uint16, delayTicks: uint16)
    returns (status: seq<UartWrite>)
    ensures status == [WriteByte(1), WriteInt(samples)]
  {
    var scope := new Scope(adc0, dma0, timer0, cs0);
    scope.CaptureDMA(config, samples, delayTicks);
    status := scope.GetCaptureStatus();
  }

  /** `ConfigureTrigger` followed by a two-channel capture: the capture keeps
      the trigger configuration, and it is left waiting for the trigger
      exactly when bit 7 of its configuration byte is set. */
  method TriggeredCaptureScenario(adc0: Adc, dma0: Dma, timer0: Timer, cs0: CsPins,
                                  triggerConfig: byte, level: uint16,
                                  config: byte, samples: uint16, delayTicks: uint16)
    returns (channel: byte, prescaler: byte, storedLevel: uint16, fired: bool)
    ensures channel == triggerConfig & 0x0F && prescaler == triggerConfig >> 4
    ensures storedLevel == level
    ensures fired <==> config < 0x80
  {
    var scope := new Scope(adc0, dma0, timer0, cs0);
    scope.ConfigureTrigger(triggerConfig, level);
    scope.CaptureTwo(config, samples, delayTicks);
    channel, prescaler, storedLevel := scope.triggerChannel, scope.triggerPrescaler, scope.triggerLevel;
    fired := scope.triggered;
  }
}
