/**
 * The ammeter firmware as a state machine over the AVR registers it
 * touches. Each C function of the firmware is a method of `Peripherals`;
 * the LCD is observed through the sequence of strobes sent to it.
 */
module Firmware {
  import opened AvrBits
  import opened Itoa
  import opened Lcd
  import opened Ranges
  import opened Wrappers

  // Bit positions from the ATmega32 I/O header.
  const REFS0: nat := 6  // ADMUX: reference voltage from AVCC
  const ADEN: nat := 7   // ADCSRA: ADC enable
  const ADSC: nat := 6   // ADCSRA: start conversion, cleared by hardware when done
  const ADPS2: nat := 2  // ADCSRA: prescaler select, ADPS2..ADPS0 all set is /128
  const ADPS1: nat := 1
  const ADPS0: nat := 0
  const DDA1: nat := 1   // DDRA: PA1 direction
  const PORTA3: nat := 3 // 1 kOhm relay selector
  const PORTA4: nat := 4 // 100 Ohm / 1 Ohm relay selector
  const PORTA5: nat := 5 // DC/AC relay selector
  const RS: nat := 5     // PORTD: LCD register select
  const RW: nat := 6     // PORTD: LCD read/write
  const EN: nat := 7     // PORTD: LCD enable

  /** The ADC's 10-bit conversion result. */
  type Sample = s: int | 0 <= s < 1024

  /** One pass of the measurement loop: the conversion the ADC delivers and the key held. */
  datatype Reading = Reading(sample: Sample, key: bv8)

  /** The exit key of the measurement loop, '9'. */
  const EXIT_KEY: bv8 := NINE

  /** `s` as the bytes of its characters; every character is below 256. */
  function Ascii(s: string): seq<bv8>
    requires forall i :: 0 <= i < |s| ==> s[i] as int < 256
  {
    seq(|s|, i requires 0 <= i < |s| && s[i] as int < 256 => s[i] as int as bv8)
  }

  const CURRENT_LABEL: seq<bv8> := Ascii("Current value : ")
  const EXIT_HINT: seq<bv8> := Ascii("9->")

  /**
   * What Ammeter_Init sends to the LCD: LCD_INIT's commands, the cursor at
   * row 0 column 0, the 16-character label, the cursor at row 1 column 13,
   * and the 3-character exit hint.
   */
  const INIT_TRACE: seq<Strobe> := Commands(INIT_SEQUENCE) + LABELS_TRACE

  /** The static labels: the current label on row 0 and the exit hint at row 1 column 13. */
  const LABELS_TRACE: seq<Strobe> :=
    [Strobe(false, 0x80)] + DataStrobes(CURRENT_LABEL) + [Strobe(false, 0xCD)] + DataStrobes(EXIT_HINT)

  /** PORTD after a strobe: RS per the strobe kind, RW and EN low, PD0..PD4 as before. */
  predicate StrobeDone(before: bv8, after: bv8, isData: bool) {
    && (Bit(after, RS) <==> isData) && !Bit(after, RW) && !Bit(after, EN)
    && forall q :: 0 <= q < RS ==> (Bit(after, q) <==> Bit(before, q))
  }

  /** PORTB still holds the byte of the last strobe the LCD was given. */
  predicate LastStrobed(portb: bv8, trace: seq<Strobe>) {
    |trace| > 0 && portb == trace[|trace| - 1].value
  }

  /** Only the last of consecutive strobes decides where RS, RW and EN end up. */
  lemma StrobeDoneTrans(a: bv8, b: bv8, c: bv8, x: bool, y: bool)
    requires StrobeDone(a, b, x) && StrobeDone(b, c, y)
    ensures StrobeDone(a, c, y)
  {
  }

  /**
   * ADMUX after ADC_READ selects `channel`: the MUX bits hold the channel
   * and, for a channel below 16, the upper four bits (REFS1, REFS0, ADLAR,
   * MUX4) are kept.
   */
  function SelectChannel(admux: bv8, channel: bv8): (r: bv8)
    ensures r & 0x0F == channel & 0x0F
    ensures channel < 16 ==> r & 0xF0 == admux & 0xF0
  {
    (admux & 0xF0) | channel
  }

  /** Selecting a channel keeps the reference selection ADC_INIT made. */
  lemma SelectChannelKeepsReference(admux: bv8, channel: bv8)
    requires channel < 16
    ensures Bit(SelectChannel(admux, channel), REFS0) <==> Bit(admux, REFS0)
  {
  }

  /** Bit by bit: the MUX bits hold the channel and the upper four bits are those of ADMUX. */
  lemma SelectChannelBits(admux: bv8, channel: bv8)
    requires channel < 16
    ensures forall q :: 0 <= q < 8 ==>
              (Bit(SelectChannel(admux, channel), q) <==> if q < 4 then Bit(channel, q) else Bit(admux, q))
  {
  }

  /**
   * ADMUX and ADCSRA after a conversion on channel 0 (ADC_READ(0)): the MUX
   * bits select channel 0, ADSC has been cleared by the hardware, and every
   * other ADCSRA bit is as it was.
   */
  predicate ConversionDone(admux: bv8, adcsra: bv8, admux': bv8, adcsra': bv8) {
    && admux' == SelectChannel(admux, 0) && !Bit(adcsra', ADSC)
    && forall q :: 0 <= q < 8 && q != ADSC ==> (Bit(adcsra', q) <==> Bit(adcsra, q))
  }

  /** A second conversion on channel 0 leaves the registers as the first one did. */
  lemma ConversionDoneTrans(m0: bv8, c0: bv8, m1: bv8, c1: bv8, m2: bv8, c2: bv8)
    requires ConversionDone(m0, c0, m1, c1) && ConversionDone(m1, c1, m2, c2)
    ensures ConversionDone(m0, c0, m2, c2)
  {
  }

  /**
   * PORTD, ADMUX and ADCSRA after one or more passes of the measurement
   * loop: the last strobe was a data strobe and the last conversion was on
   * channel 0.
   */
  predicate PassDone(portd: bv8, admux: bv8, adcsra: bv8, portd': bv8, admux': bv8, adcsra': bv8) {
    StrobeDone(portd, portd', true) && ConversionDone(admux, adcsra, admux', adcsra')
  }

  /** Another pass leaves the registers as the first one did. */
  lemma PassDoneTrans(d0: bv8, m0: bv8, c0: bv8, d1: bv8, m1: bv8, c1: bv8, d2: bv8, m2: bv8, c2: bv8)
    requires PassDone(d0, m0, c0, d1, m1, c1) && PassDone(d1, m1, c1, d2, m2, c2)
    ensures PassDone(d0, m0, c0, d2, m2, c2)
  {
    StrobeDoneTrans(d0, d1, d2, true, true);
    ConversionDoneTrans(m0, c0, m1, c1, m2, c2);
  }

  /**
   * ADMUX and ADCSRA at the end of Ammeter, from their values `admux` and
   * `adcsra` before it: ADC_INIT's REFS0 set, and after at least one pass
   * the MUX bits cleared for channel 0; ADC_INIT's ADEN and ADPS2..0 set.
   * ADSC is the bit as the firmware wrote it: set by ADC_INIT and cleared
   * only by the first ADC_READ of a pass. On the chip the conversion that
   * ADC_INIT starts completes by itself, which is not modelled.
   */
  predicate AdcAfter(admux: bv8, adcsra: bv8, admux': bv8, adcsra': bv8, steps: nat) {
    && (forall q :: 0 <= q < 8 ==>
          (Bit(admux', q) <==> (q == REFS0 || Bit(admux, q)) && (steps == 0 || q >= 4)))
    && (forall q :: 0 <= q < 8 ==>
          (Bit(adcsra', q) <==> if q == ADSC then steps == 0 else q == ADEN || q <= ADPS2 || Bit(adcsra, q)))
  }

  /**
   * AdcAfter holds at the end of Ammeter: ADC_INIT set the bits, then no
   * pass ran and nothing changed, or the last pass left a channel-0
   * conversion done.
   */
  lemma AdcAfterSession(m0: bv8, c0: bv8, m1: bv8, c1: bv8, m2: bv8, c2: bv8, steps: nat)
    requires forall q :: 0 <= q < 8 ==> (Bit(m1, q) <==> q == REFS0 || Bit(m0, q))
    requires forall q :: 0 <= q < 8 ==> (Bit(c1, q) <==> q == ADEN || q == ADSC || q <= ADPS2 || Bit(c0, q))
    requires steps == 0 ==> m2 == m1 && c2 == c1
    requires steps > 0 ==> ConversionDone(m1, c1, m2, c2)
    ensures AdcAfter(m0, c0, m2, c2, steps)
  {
    SelectChannelBits(m1, 0);
  }

  /** The level of PORTA bit `q` once Ammeter has set up the relays for `range` and `mode`. */
  predicate RelayLevel(range: bv8, mode: bv8, q: nat) {
    if q == PORTA5 then mode != 1
    else if q == PORTA3 then (RangeOf(range).None? || Selector(RangeOf(range).value).0)
    else if q == PORTA4 then (RangeOf(range).None? || Selector(RangeOf(range).value).1)
    else true
  }

  /** Every PORTA bit is at the level RelayLevel gives for `range` and `mode`. */
  predicate RelaysSet(range: bv8, mode: bv8, porta: bv8) {
    forall q :: 0 <= q < 8 ==> (Bit(porta, q) <==> RelayLevel(range, mode, q))
  }

  /**
   * PORTA after Ammeter_Init and the range branch: the levels RelayLevel
   * gives, whether or not the range was recognised (an unrecognised range
   * leaves PA3 and PA4 as Ammeter_Init drove them, high).
   */
  lemma RelaysAfterSetup(range: bv8, mode: bv8, porta1: bv8, porta2: bv8)
    requires forall q :: 0 <= q < 8 ==> (Bit(porta1, q) <==> q != PORTA5 || mode != 1)
    requires RangeOf(range).None? ==> porta2 == porta1
    requires RangeOf(range).Some? ==>
               && Bit(porta2, PORTA3) == Selector(RangeOf(range).value).0
               && Bit(porta2, PORTA4) == Selector(RangeOf(range).value).1
               && forall q :: 0 <= q < 8 && q != PORTA3 && q != PORTA4 ==> (Bit(porta2, q) <==> Bit(porta1, q))
    ensures RelaysSet(range, mode, porta2)
  {
  }

  /** The measured current for a raw sample. */
  function Measured(sample: Sample, factor: real): real {
    (sample as real) * factor
  }

  /** Every scaled sample of a range is a value the formatter is asked to fit into the buffer. */
  lemma ScaledSamplesFit(r: Range, format: real -> seq<bv8>)
    requires forall v :: 0.0 <= v < 4.0 ==> |format(v)| < 10
    ensures forall s: Sample :: |format(Measured(s, ScaleFactor(r)))| < 10
  {
  }

  /** What one pass of the measurement loop sends: cursor to row 1 column 0, then a 6-wide float field. */
  function StepTrace(text: seq<bv8>): seq<Strobe> {
    [Strobe(false, 0xC0)] + DataStrobes(FloatField(text, 6))
  }

  /** What the measurement loop sends over the given passes. */
  function SessionTrace(factor: real, format: real -> seq<bv8>, rs: seq<Reading>): seq<Strobe>
    decreases |rs|
  {
    if rs == [] then []
    else SessionTrace(factor, format, rs[..|rs| - 1])
         + StepTrace(format(Measured(rs[|rs| - 1].sample, factor)))
  }

  /**
   * `strcpy`-like store of `text` and its terminating NUL at the start of
   * `buf`, as `itoa` and `sprintf` write their output.
   */
  method StoreCString(buf: array<bv8>, text: seq<bv8>)
    requires |text| < buf.Length
    modifies buf
    ensures forall k :: 0 <= k < buf.Length ==>
              buf[k] == if k < |text| then text[k] else if k == |text| then NUL else old(buf[k])
  {
    var i := 0;
    while i < |text|
      invariant 0 <= i <= |text|
      invariant forall k :: 0 <= k < i ==> buf[k] == text[k]
      invariant forall k :: i <= k < buf.Length ==> buf[k] == old(buf[k])
    {
      buf[i] := text[i];
      i := i + 1;
    }
    buf[|text|] := NUL;
  }

  class Peripherals {
    var PORTA: bv8
    var DDRA: bv8
    var PORTB: bv8
    var DDRB: bv8
    var PORTD: bv8
    var DDRD: bv8
    var ADMUX: bv8
    var ADCSRA: bv8
    /** Every strobe of the LCD enable line so far, oldest first. */
    var Trace: seq<Strobe>

    /** Power-on reset: every modelled register reads 0 and nothing has reached the LCD. */
    constructor ()
      ensures PORTA == 0 && DDRA == 0 && PORTB == 0 && DDRB == 0
      ensures PORTD == 0 && DDRD == 0 && ADMUX == 0 && ADCSRA == 0
      ensures Trace == []
    {
      PORTA, DDRA, PORTB, DDRB := 0, 0, 0, 0;
      PORTD, DDRD, ADMUX, ADCSRA := 0, 0, 0, 0;
      Trace := [];
    }

    /** pinWriteHIGH: `PORTA |= (1 << pin)`. */
    method PinWriteHigh(pin: nat)
      requires pin < 16
      modifies this`PORTA
      ensures forall q :: 0 <= q < 8 ==> (Bit(PORTA, q) <==> q == pin || Bit(old(PORTA), q))
    {
      OrBits(PORTA, IntMaskLowByte(pin));
      PORTA := PORTA | IntMaskLowByte(pin);
    }

    /** pinWriteLow: `PORTA &= ~(1 << pin)`. */
    method PinWriteLow(pin: nat)
      requires pin < 16
      modifies this`PORTA
      ensures forall q :: 0 <= q < 8 ==> (Bit(PORTA, q) <==> q != pin && Bit(old(PORTA), q))
    {
      AndBits(PORTA, IntInvMaskLowByte(pin));
      PORTA := PORTA & IntInvMaskLowByte(pin);
    }

    /** ADC_INIT: port A as input, AVCC reference, ADC on, a first conversion started, clock /128. */
    method AdcInit()
      modifies this`DDRA, this`ADMUX, this`ADCSRA
      ensures DDRA == 0
      ensures forall q :: 0 <= q < 8 ==> (Bit(ADMUX, q) <==> q == REFS0 || Bit(old(ADMUX), q))
      ensures forall q :: 0 <= q < 8 ==>
                (Bit(ADCSRA, q) <==> q == ADEN || q == ADSC || q <= ADPS2 || Bit(old(ADCSRA), q))
    {
      DDRA := 0x00;
      ADMUX := SetBit(ADMUX, REFS0);
      ADCSRA := SetBit(ADCSRA, ADEN);
      ADCSRA := SetBit(ADCSRA, ADSC);
      ADCSRA := SetBit(SetBit(SetBit(ADCSRA, ADPS2), ADPS1), ADPS0);
    }

    /**
     * ADC_READ: select `channel`, start a conversion and wait for it. The
     * converter is outside the model: `conversion` is the result it
     * delivers, and its clearing of ADSC is what ends the wait.
     */
    method AdcRead(channel: bv8, conversion: Sample) returns (result: UInt16)
      modifies this`ADMUX, this`ADCSRA
      ensures ADMUX == SelectChannel(old(ADMUX), channel)
      ensures !Bit(ADCSRA, ADSC)
      ensures forall q :: 0 <= q < 8 && q != ADSC ==> (Bit(ADCSRA, q) <==> Bit(old(ADCSRA), q))
      ensures result == conversion && result < 1024
    {
      ADMUX := ADMUX & 0xF0;
      ADMUX := ADMUX | channel;
      ADCSRA := SetBit(ADCSRA, ADSC);
      // conversion done: the hardware clears ADSC and ADC holds the result
      ADCSRA := ClearBit(ADCSRA, ADSC);
      result := conversion;
    }

    /** LCD_CMD: put `cmd` on the data port and pulse EN with RS and RW low. */
    method LcdCmd(cmd: bv8)
      modifies this`PORTB, this`PORTD, this`Trace
      ensures PORTB == cmd && StrobeDone(old(PORTD), PORTD, false)
      ensures Trace == old(Trace) + [Strobe(false, cmd)]
    {
      PORTB := cmd;
      PORTD := ClearBit(PORTD, RS);
      PORTD := ClearBit(PORTD, RW);
      PORTD := SetBit(PORTD, EN);
      Trace := Trace + [Strobe(Bit(PORTD, RS), PORTB)];
      PORTD := ClearBit(PORTD, EN);
    }

    /** LCD_WRITE_DATA: put `data` on the data port and pulse EN with RS high and RW low. */
    method LcdWriteData(data: bv8)
      modifies this`PORTB, this`PORTD, this`Trace
      ensures PORTB == data && StrobeDone(old(PORTD), PORTD, true)
      ensures Trace == old(Trace) + [Strobe(true, data)]
    {
      PORTB := data;
      PORTD := SetBit(PORTD, RS);
      PORTD := ClearBit(PORTD, RW);
      PORTD := SetBit(PORTD, EN);
      Trace := Trace + [Strobe(Bit(PORTD, RS), PORTB)];
      PORTD := ClearBit(PORTD, EN);
    }

    /** LCD_INIT: ports B and D as outputs, then the fixed initialisation commands. */
    method LcdInit()
      modifies this`DDRB, this`DDRD, this`PORTB, this`PORTD, this`Trace
      ensures DDRB == 0xFF && DDRD == 0xFF
      ensures Trace == old(Trace) + Commands(INIT_SEQUENCE)
      ensures PORTB == 0x0C && StrobeDone(old(PORTD), PORTD, false)
    {
      DDRB := 0xFF;
      DDRD := 0xFF;
      ghost var d0 := PORTD;
      LcdCmd(0x38);
      ghost var d1 := PORTD;
      LcdCmd(0x01);
      StrobeDoneTrans(d0, d1, PORTD, false, false);
      LcdCmd(0x02);
      StrobeDoneTrans(d0, d1, PORTD, false, false);
      LcdCmd(0x06);
      StrobeDoneTrans(d0, d1, PORTD, false, false);
      LcdCmd(0x80);
      StrobeDoneTrans(d0, d1, PORTD, false, false);
      LcdCmd(0x0C);
      StrobeDoneTrans(d0, d1, PORTD, false, false);
    }

    /** LCD_CURSOR_POSITION: build the address of `(row, col)` and send it as one command. */
    method LcdCursorPosition(row: bv8, col: bv8)
      modifies this`PORTB, this`PORTD, this`Trace
      ensures PORTB == CursorAddress(row, col) && StrobeDone(old(PORTD), PORTD, false)
      ensures Trace == old(Trace) + [Strobe(false, CursorAddress(row, col))]
    {
      var address: bv8 := 0;
      if row == 0 {
        address := 0x80;
      } else if row == 1 {
        address := 0xC0;
      }
      if col < 16 {
        address := address + col;
      }
      LcdCmd(address);
    }

    /**
     * The output loop LCD_PRINT_INT and LCD_PRINT_FLOAT share: send the first
     * `n` bytes of `ch`, each byte outside '0'..'9' (and, when `keepDot`,
     * other than '.') as a space.
     */
    method SendField(ch: array<bv8>, n: nat, keepDot: bool)
      requires n <= ch.Length
      modifies this`PORTB, this`PORTD, this`Trace
      ensures Trace == old(Trace) + DataStrobes(Shown(ch[..n], keepDot))
      ensures n == 0 ==> PORTB == old(PORTB) && PORTD == old(PORTD)
      ensures n > 0 ==> PORTB == Shown(ch[..n], keepDot)[n - 1] && StrobeDone(old(PORTD), PORTD, true)
    {
      ghost var shown := Shown(ch[..n], keepDot);
      for j := 0 to n
        invariant Trace == old(Trace) + DataStrobes(shown[..j])
        invariant j == 0 ==> PORTB == old(PORTB) && PORTD == old(PORTD)
        invariant j > 0 ==> PORTB == shown[j - 1] && StrobeDone(old(PORTD), PORTD, true)
      {
        ghost var d := PORTD;
        if (!keepDot || ch[j] != DOT) && (ch[j] < ZERO || ch[j] > NINE) {
          LcdWriteData(SPACE);
        } else {
          LcdWriteData(ch[j]);
        }
        if j > 0 {
          StrobeDoneTrans(old(PORTD), d, PORTD, true, true);
        }
        assert DataStrobes(shown[..j + 1]) == DataStrobes(shown[..j]) + [Strobe(true, shown[j])];
      }
      assert shown[..n] == shown;
    }

    /**
     * LCD_PRINT_INT: blank a 10-byte buffer over the field, let `itoa` write
     * the decimal text into it, then send the first `numOfDigits` bytes
     * with every non-digit shown as a space.
     */
    method LcdPrintInt(data: UInt16, numOfDigits: nat)
      requires numOfDigits <= 10
      modifies this`PORTB, this`PORTD, this`Trace
      ensures Trace == old(Trace) + DataStrobes(IntField(data, numOfDigits))
      ensures numOfDigits == 0 ==> PORTB == old(PORTB) && PORTD == old(PORTD)
      ensures numOfDigits > 0 ==>
                PORTB == IntField(data, numOfDigits)[numOfDigits - 1] && StrobeDone(old(PORTD), PORTD, true)
    {
      // `unsigned char ch[10] = {' '}` sets ch[0] to ' ' and the rest to 0
      var ch := new bv8[10](i => if i == 0 then SPACE else NUL);
      for j := 0 to numOfDigits
        invariant forall k :: 0 <= k < j ==> ch[k] == SPACE
        modifies ch
      {
        ch[j] := SPACE;
      }
      StoreCString(ch, IntText(data));
      IntFieldOfBuffer(data, numOfDigits, ch[..]);
      SendField(ch, numOfDigits, false);
    }

    /**
     * LCD_PRINT_FLOAT over the text `sprintf("%4.3f")` produced: the same
     * buffer handling as LCD_PRINT_INT, but digits and '.' are shown.
     */
    method LcdPrintFloat(text: seq<bv8>, numOfDigits: nat)
      requires numOfDigits <= 10 && |text| < 10
      modifies this`PORTB, this`PORTD, this`Trace
      ensures Trace == old(Trace) + DataStrobes(FloatField(text, numOfDigits))
      ensures numOfDigits == 0 ==> PORTB == old(PORTB) && PORTD == old(PORTD)
      ensures numOfDigits > 0 ==>
                PORTB == FloatField(text, numOfDigits)[numOfDigits - 1] && StrobeDone(old(PORTD), PORTD, true)
    {
      var ch := new bv8[10](i => if i == 0 then SPACE else NUL);
      for j := 0 to numOfDigits
        invariant forall k :: 0 <= k < j ==> ch[k] == SPACE
        modifies ch
      {
        ch[j] := SPACE;
      }
      StoreCString(ch, text);
      FloatFieldOfBuffer(text, numOfDigits, ch[..]);
      SendField(ch, numOfDigits, true);
    }

    /** LCD_PRINT_STRING: send the first `size` bytes of `st` as data. */
    method LcdPrintString(st: seq<bv8>, size: bv8)
      requires size as int <= |st|
      modifies this`PORTB, this`PORTD, this`Trace
      ensures Trace == old(Trace) + DataStrobes(st[..size])
      ensures size == 0 ==> PORTB == old(PORTB) && PORTD == old(PORTD)
      ensures size > 0 ==> PORTB == st[size - 1] && StrobeDone(old(PORTD), PORTD, true)
    {
      var n := size as int;
      for i := 0 to n
        invariant Trace == old(Trace) + DataStrobes(st[..i])
        invariant i == 0 ==> PORTB == old(PORTB) && PORTD == old(PORTD)
        invariant i > 0 ==> PORTB == st[i - 1] && StrobeDone(old(PORTD), PORTD, true)
      {
        ghost var d := PORTD;
        LcdWriteData(st[i]);
        if i > 0 {
          StrobeDoneTrans(old(PORTD), d, PORTD, true, true);
        }
        assert DataStrobes(st[..i + 1]) == DataStrobes(st[..i]) + [Strobe(true, st[i])];
      }
    }

    /** LCD_CLEAR: clear, return home, go to row 0 column 0. */
    method LcdClear()
      modifies this`PORTB, this`PORTD, this`Trace
      ensures Trace == old(Trace) + Commands(CLEAR_SEQUENCE)
      ensures PORTB == 0x80 && StrobeDone(old(PORTD), PORTD, false)
    {
      ghost var d0 := PORTD;
      LcdCmd(0x01);
      ghost var d1 := PORTD;
      LcdCmd(0x02);
      StrobeDoneTrans(d0, d1, PORTD, false, false);
      LcdCmd(0x80);
      StrobeDoneTrans(d0, d1, PORTD, false, false);
    }

    /** The label drawing of Ammeter_Init, after the LCD and the ADC are up. */
    method DrawLabels()
      modifies this`PORTB, this`PORTD, this`Trace
      ensures Trace == old(Trace) + LABELS_TRACE
      ensures PORTB == EXIT_HINT[2] && LastStrobed(PORTB, Trace)
      ensures StrobeDone(old(PORTD), PORTD, true)
    {
      ghost var t0, d0 := Trace, PORTD;
      LcdCursorPosition(0, 0);
      ghost var d1 := PORTD;
      LcdPrintString(CURRENT_LABEL, 16);
      StrobeDoneTrans(d0, d1, PORTD, false, true);
      LcdCursorPosition(1, 13);
      StrobeDoneTrans(d0, d1, PORTD, false, false);
      LcdPrintString(EXIT_HINT, 3);
      StrobeDoneTrans(d0, d1, PORTD, false, true);
      assert CURRENT_LABEL[..16] == CURRENT_LABEL && EXIT_HINT[..3] == EXIT_HINT;
    }

    /**
     * Ammeter_Init: bring up the LCD and the ADC, draw the static labels,
     * make port A an output port driven high except for input PA1, and set
     * the DC/AC relay on PA5: low for mode 1 (DC), high for any other mode (AC).
     */
    method AmmeterInit(mode: bv8)
      modifies this
      ensures DDRA == 0xFD && DDRB == 0xFF && DDRD == 0xFF
      ensures forall q :: 0 <= q < 8 ==> (Bit(PORTA, q) <==> q != PORTA5 || mode != 1)
      ensures forall q :: 0 <= q < 8 ==> (Bit(ADMUX, q) <==> q == REFS0 || Bit(old(ADMUX), q))
      ensures forall q :: 0 <= q < 8 ==>
                (Bit(ADCSRA, q) <==> q == ADEN || q == ADSC || q <= ADPS2 || Bit(old(ADCSRA), q))
      ensures Trace == old(Trace) + INIT_TRACE
      ensures PORTB == EXIT_HINT[2] && LastStrobed(PORTB, Trace)
      ensures StrobeDone(old(PORTD), PORTD, true)
    {
      ghost var d0 := PORTD;
      LcdInit();
      AdcInit();
      ghost var d1 := PORTD;
      DrawLabels();
      StrobeDoneTrans(d0, d1, PORTD, false, true);
      DDRA := 0xFF;
      PORTA := 0xFF;
      DDRA := ClearBit(DDRA, DDA1);
      if mode == 1 {
        PinWriteLow(PORTA5);
      } else {
        PinWriteHigh(PORTA5);
      }
    }

    /**
     * One pass of Ammeter's measurement loop: cursor to row 1 column 0,
     * sample channel 0, scale by `factor`, print the value 6 wide, and report
     * whether the key held is the exit key. The float formatting of
     * `sprintf("%4.3f")` is the parameter `format`.
     */
    method Step(factor: real, format: real -> seq<bv8>, sample: Sample, key: bv8)
      returns (value: real, exit: bool)
      requires |format(Measured(sample, factor))| < 10
      modifies this`PORTB, this`PORTD, this`Trace, this`ADMUX, this`ADCSRA
      ensures value == Measured(sample, factor)
      ensures exit <==> key == EXIT_KEY
      ensures Trace == old(Trace) + StepTrace(format(value))
      ensures ConversionDone(old(ADMUX), old(ADCSRA), ADMUX, ADCSRA)
      ensures PORTB == FloatField(format(value), 6)[5] && LastStrobed(PORTB, Trace)
      ensures StrobeDone(old(PORTD), PORTD, true)
    {
      ghost var d0 := PORTD;
      LcdCursorPosition(1, 0);
      ghost var d1 := PORTD;
      var raw := AdcRead(0, sample);
      value := (raw as real) * factor;
      assert value == Measured(sample, factor);
      LcdPrintFloat(format(value), 6);
      StrobeDoneTrans(d0, d1, PORTD, false, true);
      exit := key == EXIT_KEY;
    }

    /**
     * The range branches of Ammeter for a recognised range: the scale
     * factor, and the relay lines PA3/PA4 driven to the range's pattern.
     */
    method SetRelays(r: Range) returns (factor: real)
      modifies this`PORTA
      ensures factor == ScaleFactor(r)
      ensures Bit(PORTA, PORTA3) == Selector(r).0 && Bit(PORTA, PORTA4) == Selector(r).1
      ensures forall q :: 0 <= q < 8 && q != PORTA3 && q != PORTA4 ==> (Bit(PORTA, q) <==> Bit(old(PORTA), q))
    {
      // the factors are the literals of the C branches; the first ensures
      // ties each of them to Ranges.ScaleFactor
      match r
      case Low =>
        factor := 0.005 / 1024.0;
        PinWriteLow(PORTA3);
        PinWriteLow(PORTA4);
      case Mid =>
        factor := 0.05 / 1024.0;
        PinWriteHigh(PORTA3);
        PinWriteLow(PORTA4);
      case High =>
        factor := 4.0 / 1024.0;
        PinWriteHigh(PORTA3);
        PinWriteHigh(PORTA4);
    }

    /**
     * Ammeter: initialise, check the range, set the relays and run the
     * measurement loop until the exit key. The loop's inputs are `readings`,
     * one per pass; when they run out before the exit key the C function is
     * still looping, which the result None stands for. Some(0) is the
     * invalid-range return, Some(1) the return after the exit key.
     */
    method Ammeter(range: bv8, mode: bv8, format: real -> seq<bv8>, readings: seq<Reading>)
      returns (status: Option<bv8>, steps: nat)
      requires forall v :: 0.0 <= v < 4.0 ==> |format(v)| < 10
      modifies this
      ensures DDRA == 0xFD && DDRB == 0xFF && DDRD == 0xFF
      ensures RelaysSet(range, mode, PORTA)
      ensures AdcAfter(old(ADMUX), old(ADCSRA), ADMUX, ADCSRA, steps)
      ensures StrobeDone(old(PORTD), PORTD, true)
      ensures LastStrobed(PORTB, Trace)
      ensures RangeOf(range).None? ==> status == Some(0) && steps == 0 && Trace == old(Trace) + INIT_TRACE
      ensures RangeOf(range).Some? ==>
                && status != Some(0) && steps <= |readings|
                && Trace == old(Trace) + INIT_TRACE
                            + SessionTrace(ScaleFactor(RangeOf(range).value), format, readings[..steps])

      ensures status == Some(1) ==> 1 <= steps && readings[steps - 1].key == EXIT_KEY
      ensures status != Some(0) ==> forall i :: 0 <= i < steps - 1 ==> readings[i].key != EXIT_KEY
      ensures status == None ==> steps == |readings| && forall i :: 0 <= i < steps ==> readings[i].key != EXIT_KEY
      ensures status == Some(0) || status == Some(1) || status == None
    {
      AmmeterInit(mode);
      ghost var a1 := PORTA;
      var selected := RangeOf(range);
      if selected.None? {
        RelaysAfterSetup(range, mode, a1, PORTA);
        AdcAfterSession(old(ADMUX), old(ADCSRA), ADMUX, ADCSRA, ADMUX, ADCSRA, 0);
        return Some(0), 0;
      }
      var exited;
      exited, steps := RunRange(range, mode, format, readings, old(PORTD), old(ADMUX), old(ADCSRA));
      status := if exited then Some(1) else None;
    }

    /**
     * The rest of Ammeter for a recognised range, once Ammeter_Init has run:
     * the range branch and the measurement loop. `d0`, `m0` and `c0` are
     * PORTD, ADMUX and ADCSRA before Ammeter_Init.
     */
    method RunRange(range: bv8, mode: bv8, format: real -> seq<bv8>, readings: seq<Reading>,
                    ghost d0: bv8, ghost m0: bv8, ghost c0: bv8)
      returns (exited: bool, steps: nat)
      requires RangeOf(range).Some?
      requires forall v :: 0.0 <= v < 4.0 ==> |format(v)| < 10
      requires forall q :: 0 <= q < 8 ==> (Bit(PORTA, q) <==> q != PORTA5 || mode != 1)
      requires forall q :: 0 <= q < 8 ==> (Bit(ADMUX, q) <==> q == REFS0 || Bit(m0, q))
      requires forall q :: 0 <= q < 8 ==> (Bit(ADCSRA, q) <==> q == ADEN || q == ADSC || q <= ADPS2 || Bit(c0, q))
      requires StrobeDone(d0, PORTD, true) && LastStrobed(PORTB, Trace)
      modifies this`PORTA, this`PORTB, this`PORTD, this`Trace, this`ADMUX, this`ADCSRA
      ensures RelaysSet(range, mode, PORTA)
      ensures AdcAfter(m0, c0, ADMUX, ADCSRA, steps)
      ensures StrobeDone(d0, PORTD, true) && LastStrobed(PORTB, Trace)
      ensures steps <= |readings|
      ensures Trace == old(Trace) + SessionTrace(ScaleFactor(RangeOf(range).value), format, readings[..steps])
      ensures exited ==> 1 <= steps && readings[steps - 1].key == EXIT_KEY
      ensures forall i :: 0 <= i < steps - 1 ==> readings[i].key != EXIT_KEY
      ensures !exited ==> steps == |readings| && forall i :: 0 <= i < steps ==> readings[i].key != EXIT_KEY
    {
      ghost var a1 := PORTA;
      var r := RangeOf(range).value;
      var factor := SetRelays(r);
      RelaysAfterSetup(range, mode, a1, PORTA);
      ScaledSamplesFit(r, format);
      ghost var d1, m1, c1 := PORTD, ADMUX, ADCSRA;
      exited, steps := MeasureLoop(factor, format, readings);
      if steps > 0 {
        StrobeDoneTrans(d0, d1, PORTD, true, true);
      }
      AdcAfterSession(m0, c0, m1, c1, ADMUX, ADCSRA, steps);
    }

    /**
     * One pass of the `while(1)` loop of Ammeter, the `k`-th, stated against
     * the state before the loop: `t0`, `d0`, `m0` and `c0` are the trace,
     * PORTD, ADMUX and ADCSRA the loop started from.
     */
    method Pass(factor: real, format: real -> seq<bv8>, readings: seq<Reading>, k: nat,
                ghost t0: seq<Strobe>, ghost d0: bv8, ghost m0: bv8, ghost c0: bv8)
      returns (exit: bool)
      requires k < |readings|
      requires forall s: Sample :: |format(Measured(s, factor))| < 10
      requires Trace == t0 + SessionTrace(factor, format, readings[..k])
      requires k == 0 ==> PORTD == d0 && ADMUX == m0 && ADCSRA == c0
      requires k > 0 ==> PassDone(d0, m0, c0, PORTD, ADMUX, ADCSRA)
      modifies this`PORTB, this`PORTD, this`Trace, this`ADMUX, this`ADCSRA
      ensures Trace == t0 + SessionTrace(factor, format, readings[..k + 1])
      ensures LastStrobed(PORTB, Trace) && PassDone(d0, m0, c0, PORTD, ADMUX, ADCSRA)
      ensures exit <==> readings[k].key == EXIT_KEY
    {
      ghost var dd, mm, cc := PORTD, ADMUX, ADCSRA;
      var value;
      value, exit := Step(factor, format, readings[k].sample, readings[k].key);
      if k > 0 {
        PassDoneTrans(d0, m0, c0, dd, mm, cc, PORTD, ADMUX, ADCSRA);
      }
      assert readings[..k + 1][..k] == readings[..k];
    }

    /**
     * The `while(1)` loop of Ammeter over the passes in `readings`: it stops
     * after the first pass whose key is the exit key, or when the readings
     * run out.
     */
    method MeasureLoop(factor: real, format: real -> seq<bv8>, readings: seq<Reading>)
      returns (exited: bool, steps: nat)
      requires forall s: Sample :: |format(Measured(s, factor))| < 10
      modifies this`PORTB, this`PORTD, this`Trace, this`ADMUX, this`ADCSRA
      ensures steps <= |readings|
      ensures Trace == old(Trace) + SessionTrace(factor, format, readings[..steps])
      ensures exited ==> 1 <= steps && readings[steps - 1].key == EXIT_KEY
      ensures forall i :: 0 <= i < steps - 1 ==> readings[i].key != EXIT_KEY
      ensures !exited ==> steps == |readings| && forall i :: 0 <= i < steps ==> readings[i].key != EXIT_KEY
      ensures steps == 0 ==>
                PORTB == old(PORTB) && PORTD == old(PORTD) && ADMUX == old(ADMUX) && ADCSRA == old(ADCSRA)
      ensures steps > 0 ==>
                && LastStrobed(PORTB, Trace)
                && PassDone(old(PORTD), old(ADMUX), old(ADCSRA), PORTD, ADMUX, ADCSRA)
    {
      exited, steps := false, 0;
      while steps < |readings|
        invariant 0 <= steps <= |readings|
        invariant Trace == old(Trace) + SessionTrace(factor, format, readings[..steps])
        invariant forall i :: 0 <= i < steps ==> readings[i].key != EXIT_KEY
        invariant steps == 0 ==>
                    PORTB == old(PORTB) && PORTD == old(PORTD) && ADMUX == old(ADMUX) && ADCSRA == old(ADCSRA)
        invariant steps > 0 ==>
                    && LastStrobed(PORTB, Trace)
                    && PassDone(old(PORTD), old(ADMUX), old(ADCSRA), PORTD, ADMUX, ADCSRA)
      {
        var exit := Pass(factor, format, readings, steps, old(Trace), old(PORTD), old(ADMUX), old(ADCSRA));
        steps := steps + 1;
        if exit {
          exited := true;
          break;
        }
      }
    }
  }
}
