/**
 * What the firmware sends to the character LCD: one strobe per command or
 * data byte, the DDRAM addresses it computes for a cursor position, and the
 * fixed-width fields its number printers produce.
 */
module Lcd {
  import opened Itoa

  const SPACE: bv8 := 0x20  // ' '
  const DOT: bv8 := 0x2E    // '.'
  const NUL: bv8 := 0x00    // C string terminator

  /** One pulse of the enable line: the register-select level and the byte on the data port. */
  datatype Strobe = Strobe(isData: bool, value: bv8)

  function Commands(cs: seq<bv8>): seq<Strobe> {
    seq(|cs|, i requires 0 <= i < |cs| => Strobe(false, cs[i]))
  }

  function DataStrobes(ds: seq<bv8>): seq<Strobe> {
    seq(|ds|, i requires 0 <= i < |ds| => Strobe(true, ds[i]))
  }

  /**
   * LCD_INIT's command sequence: 8-bit interface with two lines, clear,
   * return home, increment cursor, go to line 0 column 0, display on with
   * cursor off.
   */
  const INIT_SEQUENCE: seq<bv8> := [0x38, 0x01, 0x02, 0x06, 0x80, 0x0C]

  /** LCD_CLEAR's command sequence: clear, return home, go to line 0 column 0. */
  const CLEAR_SEQUENCE: seq<bv8> := [0x01, 0x02, 0x80]

  /** Bit 7 of a command byte marks the "set DDRAM address" command. */
  predicate IsSetAddress(a: bv8) {
    a & 0x80 != 0
  }

  /** On a two-line display, bit 6 of a DDRAM address selects the line. */
  function LineOf(a: bv8): bv8 {
    if a & 0x40 == 0 then 0 else 1
  }

  /** The column within the line: the low six address bits. */
  function ColumnOf(a: bv8): bv8 {
    a & 0x3F
  }

  /**
   * The command LCD_CURSOR_POSITION sends for `(row, col)`: the base of the
   * row (0x80 for row 0, 0xC0 for row 1, 0 for any other row) plus the
   * column when the column is below 16. A column of 16 or more is not
   * dropped: the bare row base is still sent.
   */
  function CursorAddress(row: bv8, col: bv8): (a: bv8)
    ensures row <= 1 ==> IsSetAddress(a) && LineOf(a) == row
    ensures row <= 1 ==> ColumnOf(a) == if col < 16 then col else 0
    ensures row > 1 ==> !IsSetAddress(a) && a == if col < 16 then col else 0
  {
    var base: bv8 := if row == 0 then 0x80 else if row == 1 then 0xC0 else 0;
    if col < 16 then base + col else base
  }

  /** `n` spaces. */
  function Spaces(n: nat): seq<bv8> {
    seq(n, _ => SPACE)
  }

  /** `s` cut or padded with spaces to exactly `w` characters, left-justified. */
  function LeftJustify(s: seq<bv8>, w: nat): (f: seq<bv8>)
    ensures |f| == w
    ensures forall j :: 0 <= j < w ==> f[j] == if j < |s| then s[j] else SPACE
  {
    if |s| >= w then s[..w] else s + Spaces(w - |s|)
  }

  /** The characters LCD_PRINT_INT lets through. */
  function ShowDigit(c: bv8): bv8 {
    if IsDigit(c) then c else SPACE
  }

  /** The characters LCD_PRINT_FLOAT lets through. */
  predicate IsNumeric(c: bv8) {
    IsDigit(c) || c == DOT
  }

  function ShowNumeric(c: bv8): bv8 {
    if IsNumeric(c) then c else SPACE
  }

  /** Each byte of `s` as the LCD shows it: digits (and '.' if `keepDot`) as they are, the rest as spaces. */
  function Shown(s: seq<bv8>, keepDot: bool): seq<bv8> {
    seq(|s|, i requires 0 <= i < |s| => if keepDot then ShowNumeric(s[i]) else ShowDigit(s[i]))
  }

  /**
   * The field LCD_PRINT_INT displays for `data` in `w` positions: the text
   * `itoa` produces, any non-digit blanked, left-justified, cut at `w`.
   */
  function IntField(data: UInt16, w: nat): seq<bv8> {
    var text := IntText(data);
    LeftJustify(seq(|text|, i requires 0 <= i < |text| => ShowDigit(text[i])), w)
  }

  /**
   * The field LCD_PRINT_FLOAT displays for an already formatted `text` in
   * `w` positions: anything but a digit or '.' blanked, left-justified, cut at `w`.
   */
  function FloatField(text: seq<bv8>, w: nat): seq<bv8> {
    LeftJustify(seq(|text|, i requires 0 <= i < |text| => ShowNumeric(text[i])), w)
  }

  /**
   * A buffer blanked with spaces over the first `w` positions and then
   * overwritten with the `itoa` text and its NUL shows the integer field.
   */
  lemma IntFieldOfBuffer(data: UInt16, w: nat, buf: seq<bv8>)
    requires w <= |buf|
    requires forall k :: 0 <= k < w ==>
               buf[k] == if k < |IntText(data)| then IntText(data)[k] else if k == |IntText(data)| then NUL else SPACE
    ensures IntField(data, w) == Shown(buf[..w], false)
  {
  }

  /**
   * A buffer blanked with spaces over the first `w` positions and then
   * overwritten with the formatted text and its NUL shows the float field.
   */
  lemma FloatFieldOfBuffer(text: seq<bv8>, w: nat, buf: seq<bv8>)
    requires w <= |buf|
    requires forall k :: 0 <= k < w ==>
               buf[k] == if k < |text| then text[k] else if k == |text| then NUL else SPACE
    ensures FloatField(text, w) == Shown(buf[..w], true)
  {
  }

  /** An integer field always has `w` characters, each a digit or a space. */
  lemma IntFieldShape(data: UInt16, w: nat)
    ensures |IntField(data, w)| == w
    ensures forall j :: 0 <= j < w ==> IsDigit(IntField(data, w)[j]) || IntField(data, w)[j] == SPACE
  {
  }

  /**
   * For a value the AVR's `int` reads as non-negative, the field is the
   * leading `w` decimal digits, padded with spaces; when the field is wide
   * enough, reading the digits back gives the value.
   */
  lemma IntFieldOfNonNegative(data: UInt16, w: nat)
    requires data < 0x8000
    ensures AllDigits(Decimal(data)) && IntField(data, w) == LeftJustify(Decimal(data), w)
    ensures w >= |Decimal(data)| ==>
              IntField(data, w) == Decimal(data) + Spaces(w - |Decimal(data)|)
              && ValueOf(IntField(data, w)[..|Decimal(data)|]) == data
  {
  }

  /** For a value the AVR's `int` reads as negative, the '-' is blanked. */
  lemma IntFieldOfNegative(data: UInt16, w: nat)
    requires data >= 0x8000 && w >= 1
    ensures IntField(data, w)[0] == SPACE
    ensures forall j :: 1 <= j < w && j < |IntText(data)| ==> IsDigit(IntField(data, w)[j])
  {
    IntTextDigits(data);
    var text := IntText(data);
    assert forall j :: 1 <= j < |text| ==> IsDigit(text[j]) by {
      forall j | 1 <= j < |text| ensures IsDigit(text[j]) {
        assert text[j] == text[1..][j - 1];
      }
    }
  }

  /**
   * A float field always has `w` characters, each a digit, '.' or a space,
   * and keeps every digit and '.' of the formatted text that fits.
   */
  lemma FloatFieldShape(text: seq<bv8>, w: nat)
    ensures |FloatField(text, w)| == w
    ensures forall j :: 0 <= j < w ==> IsNumeric(FloatField(text, w)[j]) || FloatField(text, w)[j] == SPACE
    ensures forall j :: 0 <= j < w && j < |text| && IsNumeric(text[j]) ==> FloatField(text, w)[j] == text[j]
    ensures forall j :: |text| <= j < w ==> FloatField(text, w)[j] == SPACE
  {
  }
}
