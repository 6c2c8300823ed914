# Ammeter firmware model

A Dafny model of the AVR firmware of a handheld digital ammeter
(`MCU_interfacing/WorkSpaceTest/Ammeter/ammeter.c`). The firmware reads a
10-bit ADC sample, scales it by a range factor and shows it on a 2x16
character LCD. It drives relay selector lines on port A for the range (PA3,
PA4) and for DC/AC (PA5), and it loops until the exit key '9' is seen.

With the delays and hardware waits taken away, the firmware is a state
machine over byte registers. The class `Firmware.Peripherals` holds the
registers it touches: `PORTA`, `DDRA`, `PORTB`, `DDRB`, `PORTD`, `DDRD`,
`ADMUX` and `ADCSRA`, each a `bv8`. It also holds `Trace`, the LCD as the
firmware sees it: one `Strobe(isData, value)` per pulse of the enable line.
Every C function of the core has a method of the class that models it. Each
method's frame (`modifies this`FIELD`) lists exactly the registers it writes,
and its `ensures` give the new value of each of them. `AmmeterInit` and
`Ammeter` write all nine fields, so their frame is the whole object
(`modifies this`), and their `ensures` give every field. A few C functions are
split over more than one method:

- The output loop that LCD_PRINT_INT and LCD_PRINT_FLOAT both contain is written once, as `SendField`, with a flag for whether '.' is shown.
- `Ammeter_Init` draws its labels through `DrawLabels`.
- `Ammeter` is `Ammeter` (the init and the invalid-range return), `RunRange` (the rest for a valid range), `SetRelays` (the range branches), `MeasureLoop` (the `while(1)` loop), `Pass` (one iteration, stated against the loop's start) and `Step` (the three calls of an iteration).

`StoreCString` is a method of the module rather than of the class. It models
how `itoa` and `sprintf` write their text and its NUL into the caller's
buffer.

Modules, one per part of the firmware:

- `AvrBits`: `|= (1 << n)` and `&= ~(1 << n)` on 8-bit registers, bit by bit, including the 16-bit `int` arithmetic of the pin macros.
- `Itoa`: the text `itoa(value, buf, 10)` writes. `LCD_PRINT_INT` passes its `unsigned int` to the `int` parameter of `itoa`, so a value of 0x8000 or more arrives as a negative `int`; the model includes that conversion. Also the digit string's value, with both round trips.
- `Lcd`: strobes, the command sequences, the DDRAM address of a cursor position, and the fixed-width fields the two number printers produce.
- `Ranges`: range codes, the PA3/PA4 selector pattern and the scale factor of each range, as `real`.
- `Firmware`: the `Peripherals` class and the state-level predicates.

Inputs from outside the firmware are parameters:

- the ADC conversion result (`conversion`, `Reading.sample`);
- the key held during a pass of the loop (`Reading.key`);
- the `sprintf("%4.3f")` formatting of a measured value (`format`).

Four behaviours of the code worth noting:

- `LCD_CURSOR_POSITION` with a column of 16 or more still sends a command: the bare row base (0x80 or 0xC0). The write is not dropped. A row other than 0 and 1 has base 0, so the command is the bare column. That is not a set-address command at all; for example, `(2, 1)` sends 0x01, "clear display".
- `Ammeter` calls `Ammeter_Init` before it checks the range. An invalid range therefore still draws the labels, sets `PORTA = 0xFF` and drives PA5 for the mode; it then returns 0 without a loop pass, leaving PA3 and PA4 high.
- `Ammeter_Init` sets `DDRA = 0xFD` and `PORTA = 0xFF`, so PA0 (ADC0) is an output driven high and only PA1 is an input; yet the loop samples channel 0 (line 280). The model's sample is an unconstrained input, so no contract depends on this.
- `LCD_PRINT_INT` blanks the '-' that `itoa` writes for values of 0x8000 or more. The field then shows the digits of `65536 - value`.

## Model

| member | source | states |
|---|---|---|
| AvrBits.SetBit | MCU_interfacing/WorkSpaceTest/Ammeter/ammeter.c:11 | `x \| (1 << p)` has bit p set and every other bit as in x |
| AvrBits.ClearBit | MCU_interfacing/WorkSpaceTest/Ammeter/ammeter.c:12 | `x & ~(1 << p)` has bit p clear and every other bit as in x |
| AvrBits.IntMaskLowByte | MCU_interfacing/WorkSpaceTest/Ammeter/ammeter.c:11 | the low byte of the 16-bit `1 << p` has exactly bit p set when p < 8 and no bit set for 8 <= p < 16 |
| AvrBits.IntInvMaskLowByte | MCU_interfacing/WorkSpaceTest/Ammeter/ammeter.c:12 | the low byte of the 16-bit `~(1 << p)` has every bit set except bit p |
| Firmware.Peripherals.PinWriteHigh | MCU_interfacing/WorkSpaceTest/Ammeter/ammeter.c:11 | bit `pin` of PORTA becomes 1, every other PORTA bit and every other register is unchanged (pins 8..15 change nothing) |
| Firmware.Peripherals.PinWriteLow | MCU_interfacing/WorkSpaceTest/Ammeter/ammeter.c:12 | bit `pin` of PORTA becomes 0, every other PORTA bit and every other register is unchanged |
| Firmware.Peripherals.AdcInit | MCU_interfacing/WorkSpaceTest/Ammeter/ammeter.c:29-37 | DDRA becomes 0; REFS0 is set in ADMUX; ADEN, ADSC and ADPS2..0 are set in ADCSRA; no other bit and no other register changes |
| Firmware.SelectChannel | MCU_interfacing/WorkSpaceTest/Ammeter/ammeter.c:41-42 | the MUX bits of ADMUX hold the channel, and for a channel below 16 the upper four bits are kept |
| Firmware.SelectChannelKeepsReference | MCU_interfacing/WorkSpaceTest/Ammeter/ammeter.c:33-42 | selecting a channel below 16 keeps the REFS0 bit ADC_INIT set |
| Firmware.Peripherals.AdcRead | MCU_interfacing/WorkSpaceTest/Ammeter/ammeter.c:39-47 | ADMUX selects the channel; ADSC is 0 once the wait ends and the other ADCSRA bits are unchanged; the result is the 10-bit conversion (below 1024) |
| Firmware.Peripherals.LcdCmd | MCU_interfacing/WorkSpaceTest/Ammeter/ammeter.c:51-60 | PORTB is the command; RS, RW and EN end low with PD0..PD4 unchanged; exactly one command strobe is appended to the trace |
| Firmware.Peripherals.LcdWriteData | MCU_interfacing/WorkSpaceTest/Ammeter/ammeter.c:85-94 | PORTB is the byte; RS ends high, RW and EN low, PD0..PD4 unchanged; exactly one data strobe is appended |
| Firmware.StrobeDoneTrans | MCU_interfacing/WorkSpaceTest/Ammeter/ammeter.c:55-59 | after several strobes the control lines are those of the last one and PD0..PD4 are still those before the first |
| Firmware.Peripherals.LcdInit | MCU_interfacing/WorkSpaceTest/Ammeter/ammeter.c:62-83 | DDRB and DDRD become 0xFF and the trace gets the commands 0x38, 0x01, 0x02, 0x06, 0x80, 0x0C in that order |
| Lcd.CursorAddress | MCU_interfacing/WorkSpaceTest/Ammeter/ammeter.c:96-115 | for row 0 or 1 the command is a set-DDRAM-address command that decodes back to the row and to the column (column 0 when the column is 16 or more); for any other row it is the bare column, not a set-address command |
| Firmware.Peripherals.LcdCursorPosition | MCU_interfacing/WorkSpaceTest/Ammeter/ammeter.c:96-115 | exactly one command is sent, always, and it is the cursor address of (row, col) |
| Itoa.Decimal | MCU_interfacing/WorkSpaceTest/Ammeter/ammeter.c:126 | the decimal text of a number is never empty |
| Itoa.DecimalShape | MCU_interfacing/WorkSpaceTest/Ammeter/ammeter.c:126 | the decimal text has only digits and no leading zero |
| Itoa.ValueOfDecimal | MCU_interfacing/WorkSpaceTest/Ammeter/ammeter.c:126 | reading the decimal text of n back gives n |
| Itoa.DecimalOfValue | MCU_interfacing/WorkSpaceTest/Ammeter/ammeter.c:126 | every digit string without a leading zero is the decimal text of its own value (the other round trip) |
| Itoa.DecimalLength | MCU_interfacing/WorkSpaceTest/Ammeter/ammeter.c:126 | a number below 10^k has at most k digits |
| Itoa.FitsInFiveDigits | MCU_interfacing/WorkSpaceTest/Ammeter/ammeter.c:126 | a magnitude up to 0x8000 has at most five digits |
| Itoa.IntText | MCU_interfacing/WorkSpaceTest/Ammeter/ammeter.c:126 | `itoa` of a 16-bit value writes 1 to 6 characters, so the text and its NUL fit the 10-byte buffer |
| Itoa.IntTextDigits | MCU_interfacing/WorkSpaceTest/Ammeter/ammeter.c:126 | below 0x8000 the text is the decimal text of the value; from 0x8000 up it is '-' and the decimal text of 65536 - value; the digits read back to the magnitude |
| Lcd.LeftJustify | MCU_interfacing/WorkSpaceTest/Ammeter/ammeter.c:119-134 | the field has exactly w characters: the text's characters where it reaches, spaces after it |
| Lcd.IntFieldOfBuffer | MCU_interfacing/WorkSpaceTest/Ammeter/ammeter.c:119-134 | a buffer blanked over the field and then overwritten with the `itoa` text and its NUL shows exactly the integer field when non-digits are blanked |
| Lcd.IntFieldShape | MCU_interfacing/WorkSpaceTest/Ammeter/ammeter.c:117-135 | an integer field has exactly w characters, each a digit or a space |
| Lcd.IntFieldOfNonNegative | MCU_interfacing/WorkSpaceTest/Ammeter/ammeter.c:117-135 | for a value up to 32767 the field is its leading w decimal digits, left-justified and padded with spaces; when w is wide enough the digits read back to the value |
| Lcd.IntFieldOfNegative | MCU_interfacing/WorkSpaceTest/Ammeter/ammeter.c:126-134 | for a value of 0x8000 or more the '-' of `itoa` shows as a space and the rest of the text as digits |
| Firmware.StoreCString | MCU_interfacing/WorkSpaceTest/Ammeter/ammeter.c:146 | the text and its NUL terminator occupy the start of the buffer and the rest of the buffer is unchanged |
| Firmware.Peripherals.SendField | MCU_interfacing/WorkSpaceTest/Ammeter/ammeter.c:128-134 | exactly n data strobes are appended: each buffer byte as itself when it is a digit (or '.' for the float printer), otherwise a space |
| Firmware.Peripherals.LcdPrintInt | MCU_interfacing/WorkSpaceTest/Ammeter/ammeter.c:117-135 | exactly numOfDigits data strobes are appended, and they are the integer field of the value |
| Lcd.FloatFieldShape | MCU_interfacing/WorkSpaceTest/Ammeter/ammeter.c:148-154 | a float field has exactly w characters, each a digit, '.' or a space; it keeps every digit and '.' of the text that fits and is blank past the text |
| Lcd.FloatFieldOfBuffer | MCU_interfacing/WorkSpaceTest/Ammeter/ammeter.c:139-154 | a buffer blanked over the field and then overwritten with the formatted text and its NUL shows exactly the float field when everything but digits and '.' is blanked |
| Firmware.Peripherals.LcdPrintFloat | MCU_interfacing/WorkSpaceTest/Ammeter/ammeter.c:137-155 | exactly numOfDigits data strobes are appended, and they are the float field of the formatted text |
| Firmware.Peripherals.LcdPrintString | MCU_interfacing/WorkSpaceTest/Ammeter/ammeter.c:157-165 | exactly `size` data strobes are appended, equal to st[0..size) in order |
| Firmware.Peripherals.LcdClear | MCU_interfacing/WorkSpaceTest/Ammeter/ammeter.c:167-175 | the trace gets the commands 0x01, 0x02, 0x80 in that order |
| Firmware.Peripherals.DrawLabels | MCU_interfacing/WorkSpaceTest/Ammeter/ammeter.c:184-188 | the trace gets 0x80, "Current value : ", 0xCD and "9->"; PORTB is '>' and PORTD ends a data strobe |
| Firmware.Peripherals.AmmeterInit | MCU_interfacing/WorkSpaceTest/Ammeter/ammeter.c:179-211 | DDRB = DDRD = 0xFF and DDRA = 0xFD; every PORTA bit is 1 except PA5, which is 0 exactly when mode is 1; ADC_INIT's bits are set in ADMUX and ADCSRA and no other; the trace gets the init commands, 0x80, "Current value : ", 0xCD and "9->"; PORTB holds the last byte strobed and PORTD ends a data strobe |
| Ranges.RangeOf | MCU_interfacing/WorkSpaceTest/Ammeter/ammeter.c:233-275 | a range code is recognised exactly when it is 1, 2 or 3, and it is recognised as the range with that code |
| Ranges.RangeOfCode | MCU_interfacing/WorkSpaceTest/Ammeter/ammeter.c:233-270 | every range is recognised from its own code |
| Ranges.ScaleFactor | MCU_interfacing/WorkSpaceTest/Ammeter/ammeter.c:239-265 | the factor is positive and 1024 times it is the range's full scale: 0.005, 0.05 or 4.0 A |
| Ranges.ScaledSampleBelowFullScale | MCU_interfacing/WorkSpaceTest/Ammeter/ammeter.c:280 | a 10-bit sample times the factor lies in [0, full scale) |
| Ranges.Selector | MCU_interfacing/WorkSpaceTest/Ammeter/ammeter.c:242-269 | the (PA3, PA4) patterns are (0,0), (1,0) and (1,1): PA4 is never high without PA3 |
| Ranges.SelectorInjective | MCU_interfacing/WorkSpaceTest/Ammeter/ammeter.c:242-269 | different ranges drive different selector patterns |
| Firmware.Peripherals.SetRelays | MCU_interfacing/WorkSpaceTest/Ammeter/ammeter.c:233-270 | for a valid range the factor is that range's, PA3 and PA4 carry its selector pattern, and the other PORTA bits are unchanged |
| Firmware.ScaledSamplesFit | MCU_interfacing/WorkSpaceTest/Ammeter/ammeter.c:280-281 | every scaled sample is a value below 4 A, whose formatting the buffer was sized for |
| Firmware.Peripherals.Step | MCU_interfacing/WorkSpaceTest/Ammeter/ammeter.c:279-287 | one pass: command 0xC0, then the 6-wide float field of the formatted `sample * factor`; ADMUX selects channel 0, ADSC is clear and every other ADCSRA bit is kept; PORTB holds the field's last byte and PORTD ends a data strobe; the pass reports exit exactly when the key is '9' |
| Firmware.ConversionDoneTrans | MCU_interfacing/WorkSpaceTest/Ammeter/ammeter.c:39-47 | a second channel-0 conversion leaves ADMUX and ADCSRA as the first one did |
| Firmware.PassDoneTrans | MCU_interfacing/WorkSpaceTest/Ammeter/ammeter.c:277-289 | after several passes PORTD, ADMUX and ADCSRA are as after one pass from the loop's start |
| Firmware.Peripherals.Pass | MCU_interfacing/WorkSpaceTest/Ammeter/ammeter.c:278-288 | from the state after k passes, one more pass appends the k-th reading's step output to the session trace, keeps PORTD, ADMUX and ADCSRA in the after-a-pass state and exits exactly on '9' |
| Firmware.Peripherals.MeasureLoop | MCU_interfacing/WorkSpaceTest/Ammeter/ammeter.c:277-289 | the loop stops right after the first pass whose key is '9'. No earlier pass had that key. If the readings run out first, every pass ran and none had it. The trace is the passes' output in order. With no pass every register is unchanged; after one, PORTB holds the last byte strobed, PORTD ends a data strobe, ADMUX selects channel 0, ADSC is clear and every other ADCSRA bit is kept |
| Firmware.SelectChannelBits | MCU_interfacing/WorkSpaceTest/Ammeter/ammeter.c:41-42 | bit by bit, the MUX bits hold the channel and the upper four bits are those of ADMUX |
| Firmware.AdcAfterSession | MCU_interfacing/WorkSpaceTest/Ammeter/ammeter.c:29-47 | after ADC_INIT and any number of passes, ADMUX has REFS0 set and its MUX bits cleared once a pass ran; ADCSRA has ADEN and ADPS2..0 set, and ADSC, as the firmware wrote it, set exactly when no pass ran |
| Firmware.RelaysAfterSetup | MCU_interfacing/WorkSpaceTest/Ammeter/ammeter.c:191-270 | after Ammeter_Init and the range branch every PORTA bit is at its relay level; an invalid range leaves PA3 and PA4 high |
| Firmware.Peripherals.RunRange | MCU_interfacing/WorkSpaceTest/Ammeter/ammeter.c:233-291 | for a valid range after Ammeter_Init: PORTA at the relay levels, ADMUX and ADCSRA as AdcAfterSession states, PORTB the last byte strobed, PORTD ending a data strobe, the trace the session of the range's factor, and the exit facts of MeasureLoop |
| Firmware.Peripherals.Ammeter | MCU_interfacing/WorkSpaceTest/Ammeter/ammeter.c:213-292 | returns 0 exactly for a range outside 1..3, after the init and with no pass; otherwise it returns 1 only after a pass whose key is '9'; the final state in full: DDRA, DDRB and DDRD; PORTA at the relay levels of range and mode; ADMUX and ADCSRA as AdcAfterSession states; PORTB the last byte strobed; PORTD ending a data strobe; the trace is the init output followed by the passes |

## Left out

- Delays (`_delay_ms`, `delay_low`, `delay_high`): they have no logical effect, so the model drops them; no timing is modelled.
- The ADC conversion: the busy wait on ADSC is replaced by the conversion result as a parameter. The model has no conversion timing and no ADC data register.
- Firmware.Peripherals.AdcInit / Firmware.AdcAfterSession: the hardware's completion of the conversion that line 35 starts (ADSC cleared, ADIF set) is not modelled, so ADCSRA keeps ADSC = 1 until the first `AdcRead`; on the invalid-range path `Ammeter` therefore ends with ADSC = 1, where the chip has ADSC = 0 and ADIF = 1.
- Firmware.Peripherals.AdcRead: does not model the ADIF flag the hardware sets when a conversion completes.
- Float formatting: `sprintf("%4.3f")` is not modelled. The formatted text is a parameter (`format`), and only the buffer handling and blanking of LCD_PRINT_FLOAT are modelled.
- Floating-point arithmetic: the factor and the measured value are `real`, so the rounding of `double` (0.005 / 1024.0 and the multiplication on line 280) is not modelled.
- The keypad: KEYBAD.c is not part of this model. `Ammeter` reads `keypadValue` uninitialised; the model takes the key as an input of each pass instead.
- The unbounded `while(1)` loop: it runs over a finite sequence of readings. When they run out before the key '9', `Ammeter` returns None, meaning the C function is still looping.
- The relays, the shunts and the LCD controller's own state (cursor, display memory): only the strobe trace sent to the controller is modelled.
