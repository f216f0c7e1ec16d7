/** The SN76489 programmable sound generator as a pure register engine
    (src/main.rs, `Sn76489an` and `update`).

    The chip state is an immutable record; every write of a byte on the
    chip's data bus yields a new record.  Widths follow the source: the
    dividers are `u16` (modelled as `bv16`), attenuations and noise control
    are `u8` (modelled as `bv8`), and bit operations are those of the source.
 */
module Psg {

  /** The tone channel that a data-only byte writes to.  Never "none". */
  datatype LatchedChannel = Tone1 | Tone2 | Tone3

  /** The fields of a chip state, used to say which of them an operation may change. */
  datatype Field = Freq(tone: LatchedChannel) | Atten(tone: LatchedChannel) | NoiseType | NoiseAtten | Latch

  datatype Sn76489an = Sn76489an(
    tone1Frequency: bv16,
    tone1Attenuation: bv8,
    tone2Frequency: bv16,
    tone2Attenuation: bv8,
    tone3Frequency: bv16,
    tone3Attenuation: bv8,
    noiseType: bv8,
    noiseAttenuation: bv8,
    latchedChannel: LatchedChannel)
  {
    /** The frequency divider of tone channel `c`. */
    function Frequency(c: LatchedChannel): bv16
    {
      match c
      case Tone1 => tone1Frequency
      case Tone2 => tone2Frequency
      case Tone3 => tone3Frequency
    }

    /** The attenuation of tone channel `c` (0 is loudest, 15 is silent). */
    function Attenuation(c: LatchedChannel): bv8
    {
      match c
      case Tone1 => tone1Attenuation
      case Tone2 => tone2Attenuation
      case Tone3 => tone3Attenuation
    }

    /** Every register holds no more bits than the chip has: 10-bit
        dividers, 4-bit attenuations, 4-bit noise control. */
    predicate Valid()
    {
      tone1Frequency <= 0x3FF && tone2Frequency <= 0x3FF && tone3Frequency <= 0x3FF &&
      tone1Attenuation <= 0xF && tone2Attenuation <= 0xF && tone3Attenuation <= 0xF &&
      noiseType <= 0xF && noiseAttenuation <= 0xF
    }

    // The functional-update setters: each replaces one field and keeps the rest.

    function SetTone1Frequency(data: bv16): (r: Sn76489an)
      ensures r.tone1Frequency == data && SameExcept(this, r, {Freq(Tone1)})
    {
      this.(tone1Frequency := data)
    }

    function SetTone1Attenuation(data: bv8): (r: Sn76489an)
      ensures r.tone1Attenuation == data && SameExcept(this, r, {Atten(Tone1)})
    {
      this.(tone1Attenuation := data)
    }

    function SetTone2Frequency(data: bv16): (r: Sn76489an)
      ensures r.tone2Frequency == data && SameExcept(this, r, {Freq(Tone2)})
    {
      this.(tone2Frequency := data)
    }

    function SetTone2Attenuation(data: bv8): (r: Sn76489an)
      ensures r.tone2Attenuation == data && SameExcept(this, r, {Atten(Tone2)})
    {
      this.(tone2Attenuation := data)
    }

    function SetTone3Frequency(data: bv16): (r: Sn76489an)
      ensures r.tone3Frequency == data && SameExcept(this, r, {Freq(Tone3)})
    {
      this.(tone3Frequency := data)
    }

    function SetTone3Attenuation(data: bv8): (r: Sn76489an)
      ensures r.tone3Attenuation == data && SameExcept(this, r, {Atten(Tone3)})
    {
      this.(tone3Attenuation := data)
    }

    function SetNoiseType(data: bv8): (r: Sn76489an)
      ensures r.noiseType == data && SameExcept(this, r, {NoiseType})
    {
      this.(noiseType := data)
    }

    function SetNoiseAttenuation(data: bv8): (r: Sn76489an)
      ensures r.noiseAttenuation == data && SameExcept(this, r, {NoiseAtten})
    {
      this.(noiseAttenuation := data)
    }

    function SetLatchedChannel(channel: LatchedChannel): (r: Sn76489an)
      ensures r.latchedChannel == channel && SameExcept(this, r, {Latch})
    {
      this.(latchedChannel := channel)
    }

    /** One write of `cmd` on the data bus.  Bit 7 set: a latch/data byte
        whose bits 6-4 pick the register and bits 3-0 carry the data.  Bit 7
        clear: a data-only byte whose bits 5-0 become bits 9-4 of the divider
        of the latched tone channel.  Total over all 256 byte values. */
    function Update(cmd: bv8): (r: Sn76489an)
      // widths are kept: whatever is written is masked to the register's width
      ensures Valid() ==> r.Valid()
    {
      if cmd >> 7 == 1 then WriteRegister((cmd & 0x70) >> 4, cmd & 0x0F)
      else WriteLatched(((cmd & 0x3F) as bv16) << 4)
    }

    /** The latch/data half of `Update`: register `code` receives `operand`. */
    function WriteRegister(code: bv8, operand: bv8): (r: Sn76489an)
      requires operand <= 0xF
      ensures Valid() ==> r.Valid()
    {
      if code == 0 then SetTone1Frequency(WithLowNibble(tone1Frequency, operand)).SetLatchedChannel(Tone1)
      else if code == 1 then SetTone1Attenuation(operand)
      else if code == 2 then SetTone2Frequency(WithLowNibble(tone2Frequency, operand)).SetLatchedChannel(Tone2)
      else if code == 3 then SetTone2Attenuation(operand)
      else if code == 4 then SetTone3Frequency(WithLowNibble(tone3Frequency, operand)).SetLatchedChannel(Tone3)
      else if code == 5 then SetTone3Attenuation(operand)
      else if code == 6 then SetNoiseType(operand)
      else SetNoiseAttenuation(operand) // code == 7: a three-bit field has no other value
    }

    /** The data-only half of `Update`: `operand` holds bits 9-4 of the
        latched channel's new divider. */
    function WriteLatched(operand: bv16): (r: Sn76489an)
      ensures operand <= 0x3F0 && Valid() ==> r.Valid()
    {
      var divider := WithHighBits(Frequency(latchedChannel), operand);
      match latchedChannel
      case Tone1 => SetTone1Frequency(divider)
      case Tone2 => SetTone2Frequency(divider)
      case Tone3 => SetTone3Frequency(divider)
    }
  }

  /** A latch byte for a tone divider (register codes 0, 2, 4) replaces the
      divider's low nibble, keeps bits 9-4, latches that channel and changes
      nothing else. */
  lemma UpdateLatchFrequency(s: Sn76489an, cmd: bv8)
    requires IsLatchByte(cmd) && RegisterCode(cmd) in {0, 2, 4}
    ensures var r := s.Update(cmd); var c := ToneOfCode(RegisterCode(cmd));
      r.Frequency(c) == (s.Frequency(c) & 0x3F0) | (cmd & 0x0F) as bv16 &&
      r.latchedChannel == c &&
      SameExcept(s, r, {Freq(c), Latch})
  {
    var code, data := RegisterCode(cmd), cmd & 0x0F;
    assert s.Update(cmd) == s.WriteRegister(code, data) by {
      assert cmd >> 7 == 1 && (cmd & 0x70) >> 4 == code;
    }
    WriteRegisterFrame(s, code, data);
    var c := ToneOfCode(code);
    assert WithLowNibble(s.Frequency(c), data) == (s.Frequency(c) & 0x3F0) | data as bv16;
  }

  /** A latch write to a tone divider changes that divider and the latch and nothing else. */
  lemma WriteRegisterFrame(s: Sn76489an, code: bv8, data: bv8)
    requires code in {0, 2, 4} && data <= 0xF
    ensures var r := s.WriteRegister(code, data); var c := ToneOfCode(code);
      r.Frequency(c) == WithLowNibble(s.Frequency(c), data) && r.latchedChannel == c &&
      SameExcept(s, r, {Freq(c), Latch})
  {
  }

  /** A latch byte for a tone attenuation (register codes 1, 3, 5) takes the
      data nibble as it is and changes nothing else, the latch included. */
  lemma UpdateLatchAttenuation(s: Sn76489an, cmd: bv8)
    requires IsLatchByte(cmd) && RegisterCode(cmd) in {1, 3, 5}
    ensures var r := s.Update(cmd); var c := ToneOfCode(RegisterCode(cmd));
      r.Attenuation(c) == cmd & 0x0F && SameExcept(s, r, {Atten(c)})
  {
  }

  /** Latch bytes for the noise registers (codes 6 and 7) set the noise type
      or the noise attenuation to the data nibble and change nothing else. */
  lemma UpdateLatchNoise(s: Sn76489an, cmd: bv8)
    requires IsLatchByte(cmd) && RegisterCode(cmd) in {6, 7}
    ensures var r := s.Update(cmd);
      if RegisterCode(cmd) == 6 then r.noiseType == cmd & 0x0F && SameExcept(s, r, {NoiseType})
      else r.noiseAttenuation == cmd & 0x0F && SameExcept(s, r, {NoiseAtten})
  {
  }

  /** A data-only byte puts its bits 5-0 into bits 9-4 of the latched
      channel's divider, keeps that divider's low nibble and changes nothing
      else, the latch included. */
  lemma UpdateData(s: Sn76489an, cmd: bv8)
    requires !IsLatchByte(cmd)
    ensures var r := s.Update(cmd); var c := s.latchedChannel;
      r.Frequency(c) == ((cmd & 0x3F) as bv16 << 4) | (s.Frequency(c) & 0xF) &&
      SameExcept(s, r, {Freq(c)})
  {
    var operand := ((cmd & 0x3F) as bv16) << 4;
    assert s.Update(cmd) == s.WriteLatched(operand) by {
      assert cmd >> 7 != 1;
    }
    WriteLatchedFrame(s, operand);
    assert WithHighBits(s.Frequency(s.latchedChannel), operand) == operand | (s.Frequency(s.latchedChannel) & 0xF);
  }

  /** The data-only write changes the latched channel's divider and nothing else. */
  lemma WriteLatchedFrame(s: Sn76489an, operand: bv16)
    ensures var r := s.WriteLatched(operand); var c := s.latchedChannel;
      r.Frequency(c) == WithHighBits(s.Frequency(c), operand) && SameExcept(s, r, {Freq(c)})
  {
  }

  /** A divider whose bits 9-4 are kept and whose bits 3-0 become `nibble`:
      what a latch byte writes.  Bits above 9 are cleared. */
  function WithLowNibble(divider: bv16, nibble: bv8): (r: bv16)
    ensures nibble <= 0xF ==> r <= 0x3FF
  {
    (divider & 0x3F0) | nibble as bv16
  }

  /** A divider whose bits 3-0 are kept and whose other bits become `high`:
      what a data-only byte writes. */
  function WithHighBits(divider: bv16, high: bv16): (r: bv16)
    ensures high <= 0x3F0 ==> r <= 0x3FF
  {
    high | (divider & 0xF)
  }

  /** `a` and `b` agree on every field not named in `changed`. */
  predicate SameExcept(a: Sn76489an, b: Sn76489an, changed: set<Field>)
  {
    (Freq(Tone1) !in changed ==> a.tone1Frequency == b.tone1Frequency) &&
    (Atten(Tone1) !in changed ==> a.tone1Attenuation == b.tone1Attenuation) &&
    (Freq(Tone2) !in changed ==> a.tone2Frequency == b.tone2Frequency) &&
    (Atten(Tone2) !in changed ==> a.tone2Attenuation == b.tone2Attenuation) &&
    (Freq(Tone3) !in changed ==> a.tone3Frequency == b.tone3Frequency) &&
    (Atten(Tone3) !in changed ==> a.tone3Attenuation == b.tone3Attenuation) &&
    (NoiseType !in changed ==> a.noiseType == b.noiseType) &&
    (NoiseAtten !in changed ==> a.noiseAttenuation == b.noiseAttenuation) &&
    (Latch !in changed ==> a.latchedChannel == b.latchedChannel)
  }

  /** Bit 7 of a byte on the data bus is set. */
  predicate IsLatchByte(cmd: bv8)
  {
    cmd & 0x80 == 0x80
  }

  /** The register a latch byte selects (bits 6-4). */
  function RegisterCode(cmd: bv8): (code: bv8)
    ensures code < 8
  {
    (cmd >> 4) & 0x7
  }

  /** The tone channel register codes 0/1, 2/3 and 4/5 belong to. */
  function ToneOfCode(code: bv8): LatchedChannel
  {
    if code < 2 then Tone1 else if code < 4 then Tone2 else Tone3
  }

  /** The latch byte that writes `data` into register `code`. */
  function LatchByte(code: bv8, data: bv8): bv8
  {
    0x80 | (code << 4) | data
  }

  /** The power-on state (`#[derive(Default)]`): all registers zero, tone 1 latched. */
  function Default(): (s: Sn76489an)
    ensures s.Valid() && s.latchedChannel == Tone1
    ensures s.Frequency(Tone1) == s.Frequency(Tone2) == s.Frequency(Tone3) == 0
    ensures s.Attenuation(Tone1) == s.Attenuation(Tone2) == s.Attenuation(Tone3) == 0
    ensures s.noiseType == 0 && s.noiseAttenuation == 0
  {
    Sn76489an(0, 0, 0, 0, 0, 0, 0, 0, Tone1)
  }

  /** The state after writing `bytes` one after the other, starting from `s`. */
  function ApplyAll(s: Sn76489an, bytes: seq<bv8>): (r: Sn76489an)
    ensures s.Valid() ==> r.Valid()
  {
    if bytes == [] then s else ApplyAll(s, bytes[..|bytes| - 1]).Update(bytes[|bytes| - 1])
  }

  /** Every state reachable from power-on keeps every register within its width. */
  lemma ReachableStatesValid(bytes: seq<bv8>)
    ensures ApplyAll(Default(), bytes).Valid()
  {
  }

  /** Writing a latch byte for a tone divider and then a data-only byte sets
      that divider to the full 10-bit value: high six bits from the second
      byte, low four from the first. */
  lemma LatchThenData(s: Sn76489an, code: bv8, lo: bv8, hi: bv8)
    requires code in {0, 2, 4} && lo <= 0xF && hi < 0x80
    ensures var r := s.Update(LatchByte(code, lo)).Update(hi);
      r.Frequency(ToneOfCode(code)) == ((hi & 0x3F) as bv16 << 4) | lo as bv16 &&
      r.latchedChannel == ToneOfCode(code) &&
      SameExcept(s, r, {Freq(ToneOfCode(code)), Latch})
  {
    var b := LatchByte(code, lo);
    var c := ToneOfCode(code);
    assert IsLatchByte(b) && RegisterCode(b) == code && b & 0x0F == lo;
    var s1 := s.Update(b);
    UpdateLatchFrequency(s, b);
    UpdateData(s1, hi);
    LowNibbleRoundTrip(s.Frequency(c), lo);
  }

  /** The low nibble a latch byte writes is the low nibble read back. */
  lemma LowNibbleRoundTrip(divider: bv16, lo: bv8)
    requires lo <= 0xF
    ensures ((divider & 0x3F0) | lo as bv16) & 0xF == lo as bv16
  {
  }

  /** A data-only byte ignores bit 6. */
  lemma DataByteIgnoresBit6(s: Sn76489an, cmd: bv8)
    requires cmd < 0x80
    ensures s.Update(cmd) == s.Update(cmd & 0x3F)
  {
  }

  /** Before any latch byte the data-only byte writes tone 1. */
  lemma DataByteFromDefault(cmd: bv8)
    requires cmd < 0x80
    ensures var r := Default().Update(cmd);
      r.tone1Frequency == (cmd & 0x3F) as bv16 << 4 && SameExcept(Default(), r, {Freq(Tone1)})
  {
  }

  /** The two worked examples of the latch protocol: 0x80 then 0x00 clears
      tone 1's divider, 0x80 then 0x3F sets it to 0x3F0. */
  lemma LatchPersistenceExamples()
    ensures Default().Update(0x80).Update(0x00).tone1Frequency == 0
    ensures Default().Update(0x80).Update(0x3F).tone1Frequency == 0x3F0
  {
  }
}
