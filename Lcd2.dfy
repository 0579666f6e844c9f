/**
 * The driver of the second HD44780 character display, wired in 4-bit mode
 * to port D. The port register is a byte the routines read, modify and
 * write; what the display sees is the trace of the (RS, DB4-DB7) values it
 * latches at each enable strobe. Delays are not modelled.
 */
module Lcd2 {

  datatype Option<T> = None | Some(value: T)

  // Pins of port D.
  const PIN_BIT0: bv8 := 0x20  // PD5, display line DB4
  const PIN_BIT1: bv8 := 0x80  // PD7, display line DB5
  const PIN_BIT2: bv8 := 0x40  // PD6, display line DB6
  const PIN_BIT3: bv8 := 0x02  // PD1, display line DB7
  const PIN_RS: bv8 := 0x01    // PD0, 1 = data, 0 = instruction
  const PIN_EN: bv8 := 0x10    // PD4, enable strobe
  const DATA_PINS: bv8 := 0xE2
  /** Every pin the driver writes. */
  const LCD_PINS: bv8 := 0xF3

  // Instructions and their arguments.
  const CLEAR_DISPLAY: bv8 := 0x01
  const CURSOR_HOME: bv8 := 0x02
  const SET_ENTRY: bv8 := 0x04
  const ENTRY_INCREASE: bv8 := 0x02
  const ENTRY_NOSHIFT: bv8 := 0x00
  const SET_DISPLAY: bv8 := 0x08
  const DISPLAY_ON: bv8 := 0x04
  const CURSOR_OFF: bv8 := 0x00
  const BLINKING_OFF: bv8 := 0x00
  const SET_FUNCTION: bv8 := 0x20
  const FUNCTION_4BIT: bv8 := 0x00
  const FUNCTION_2LINE: bv8 := 0x08
  const FUNCTION_5X7: bv8 := 0x00
  const SOFT_RESET: bv8 := 0x30
  const SET_CGADR: bv8 := 0x40
  const SET_DDADR: bv8 := 0x80

  // Display-data addresses of the first column of each line.
  const DDADR_LINE1: bv8 := 0x00
  const DDADR_LINE2: bv8 := 0x40
  const DDADR_LINE3: bv8 := 0x10
  const DDADR_LINE4: bv8 := 0x50

  // ASCII
  const CHAR_0: bv8 := 0x30
  const CHAR_1: bv8 := 0x31

  // ---------------------------------------------------------------------
  // What travels over the 4-bit interface

  /** Four bits, the width of the interface. */
  type Nibble = b: bv8 | b < 16

  /** What the display latches at one enable strobe. */
  datatype Latch = Latch(rs: bool, nibble: Nibble)

  /** The value on DB4-DB7, read from the four data pins. */
  function PinsNibble(port: bv8): Nibble
  {
    (if port & PIN_BIT0 != 0 then 0x1 else 0x0) |
    (if port & PIN_BIT1 != 0 then 0x2 else 0x0) |
    (if port & PIN_BIT2 != 0 then 0x4 else 0x0) |
    (if port & PIN_BIT3 != 0 then 0x8 else 0x0)
  }

  /** What the display latches from the port. */
  function Sampled(port: bv8): Latch
  {
    Latch(port & PIN_RS != 0, PinsNibble(port))
  }

  function High(b: bv8): Nibble
  {
    b >> 4
  }

  function Low(b: bv8): Nibble
  {
    b & 0x0F
  }

  /** A byte transferred to the display: to its instruction or to its data register. */
  datatype Transfer = Instruction(code: bv8) | DataByte(value: bv8)
  {
    function Byte(): bv8
    {
      match this
      case Instruction(c) => c
      case DataByte(v) => v
    }
  }

  /** The strobes that carry `ts`: per byte, the high nibble then the low one. */
  function Serialise(ts: seq<Transfer>): (ls: seq<Latch>)
    ensures |ls| == 2 * |ts|
  {
    if ts == [] then []
    else
      var rs := ts[0].DataByte?;
      [Latch(rs, High(ts[0].Byte())), Latch(rs, Low(ts[0].Byte()))] + Serialise(ts[1..])
  }

  /** How the display reassembles bytes from the strobes it latched. */
  function Deserialise(ls: seq<Latch>): Option<seq<Transfer>>
  {
    if ls == [] then Some([])
    else if |ls| == 1 || ls[0].rs != ls[1].rs then None
    else
      match Deserialise(ls[2..])
      case None => None
      case Some(rest) =>
        var b := (ls[0].nibble << 4) | ls[1].nibble;
        Some([if ls[0].rs then DataByte(b) else Instruction(b)] + rest)
  }

  /** The display reads back exactly the bytes that were sent. */
  lemma {:induction false} DeserialiseSerialise(ts: seq<Transfer>)
    ensures Deserialise(Serialise(ts)) == Some(ts)
  {
    if ts != [] {
      var ls := Serialise(ts);
      assert ls[2..] == Serialise(ts[1..]);
      DeserialiseSerialise(ts[1..]);
      var b := ts[0].Byte();
      assert (High(b) << 4) | Low(b) == b;
      assert [ts[0]] + ts[1..] == ts;
    }
  }

  /** Whatever the display reads back, those bytes were sent in that order. */
  lemma {:induction false} SerialiseDeserialise(ls: seq<Latch>, ts: seq<Transfer>)
    requires Deserialise(ls) == Some(ts)
    ensures Serialise(ts) == ls
  {
    if ls != [] {
      var rest := Deserialise(ls[2..]).value;
      SerialiseDeserialise(ls[2..], rest);
      var b := (ls[0].nibble << 4) | ls[1].nibble;
      assert High(b) == ls[0].nibble && Low(b) == ls[1].nibble;
      assert ts[1..] == rest;
      assert ls == [ls[0], ls[1]] + ls[2..];
    }
  }

  lemma {:induction false} SerialiseAppend(a: seq<Transfer>, b: seq<Transfer>)
    ensures Serialise(a + b) == Serialise(a) + Serialise(b)
  {
    if a != [] {
      assert (a + b)[1..] == a[1..] + b;
      SerialiseAppend(a[1..], b);
    } else {
      assert a + b == b;
    }
  }

  /** Concatenation of strobe sequences is associative. */
  lemma Regroup(a: seq<Latch>, b: seq<Latch>, c: seq<Latch>)
    ensures a + b + c == a + (b + c)
  {
  }

  /** A trace that carries `sent` after `prefix`, followed by one more transfer. */
  lemma SentOneMore(prefix: seq<Latch>, sent: seq<Transfer>, t: Transfer)
    ensures prefix + Serialise(sent) + Serialise([t]) == prefix + Serialise(sent + [t])
  {
    SerialiseAppend(sent, [t]);
    Regroup(prefix, Serialise(sent), Serialise([t]));
  }

  function DataWrites(bs: seq<bv8>): (ts: seq<Transfer>)
    ensures |ts| == |bs|
  {
    seq(|bs|, i requires 0 <= i < |bs| => DataByte(bs[i]))
  }

  /** The strobes that write the characters `bs` to display memory. */
  function DataTrace(bs: seq<bv8>): seq<Latch>
  {
    Serialise(DataWrites(bs))
  }

  lemma DataTraceAppend(a: seq<bv8>, b: seq<bv8>)
    ensures DataTrace(a + b) == DataTrace(a) + DataTrace(b)
  {
    assert DataWrites(a + b) == DataWrites(a) + DataWrites(b);
    SerialiseAppend(DataWrites(a), DataWrites(b));
  }

  /** Writing one more character adds its two strobes. */
  lemma DataTraceSnoc(a: seq<bv8>, c: bv8)
    ensures DataTrace(a + [c]) == DataTrace(a) + Serialise([DataByte(c)])
  {
    DataTraceAppend(a, [c]);
    assert DataWrites([c]) == [DataByte(c)];
  }

  // ---------------------------------------------------------------------
  // Cursor addresses, decimal and binary text, character patterns

  /** The Set-DDRAM-address instruction for column `x` of line `y`, if `y` names a line. */
  function CursorCommand(x: bv8, y: bv8): (r: Option<bv8>)
    ensures r.Some? <==> 1 <= y <= 4
    ensures r.Some? && x < 16 ==>
              r.value & SET_DDADR != 0 &&
              r.value & 0x7F == (if y == 1 then DDADR_LINE1 else if y == 2 then DDADR_LINE2
                                 else if y == 3 then DDADR_LINE3 else DDADR_LINE4) + x
  {
    if y == 1 then Some(SET_DDADR + DDADR_LINE1 + x)
    else if y == 2 then Some(SET_DDADR + DDADR_LINE2 + x)
    else if y == 3 then Some(SET_DDADR + DDADR_LINE3 + x)
    else if y == 4 then Some(SET_DDADR + DDADR_LINE4 + x)
    else None
  }

  /** On a 16-column display every cell has its own address. */
  lemma CursorCellsDistinct(x1: bv8, y1: bv8, x2: bv8, y2: bv8)
    requires x1 < 16 && x2 < 16 && 1 <= y1 <= 4 && 1 <= y2 <= 4
    requires CursorCommand(x1, y1) == CursorCommand(x2, y2)
    ensures x1 == x2 && y1 == y2
  {
  }

  /** The ASCII character of the decimal digit `d`. */
  function DigitChar(d: nat): (c: bv8)
    requires d < 10
    ensures CHAR_0 <= c <= CHAR_0 + 9
  {
    if d == 0 then 0x30 else if d == 1 then 0x31 else if d == 2 then 0x32
    else if d == 3 then 0x33 else if d == 4 then 0x34 else if d == 5 then 0x35
    else if d == 6 then 0x36 else if d == 7 then 0x37 else if d == 8 then 0x38
    else 0x39
  }

  /** The value of a decimal digit character (0 for any other character). */
  function CharDigit(c: bv8): (d: nat)
    ensures d < 10
  {
    if c == 0x31 then 1 else if c == 0x32 then 2 else if c == 0x33 then 3
    else if c == 0x34 then 4 else if c == 0x35 then 5 else if c == 0x36 then 6
    else if c == 0x37 then 7 else if c == 0x38 then 8 else if c == 0x39 then 9
    else 0
  }

  /** The decimal digits of `n` without leading zeros, as written by itoa. */
  function DecimalDigits(n: nat): (r: seq<bv8>)
    ensures 1 <= |r|
    ensures forall i :: 0 <= i < |r| ==> CHAR_0 <= r[i] <= CHAR_0 + 9
    ensures |r| > 1 ==> r[0] != CHAR_0
    decreases n
  {
    if n < 10 then [DigitChar(n)]
    else DecimalDigits(n / 10) + [DigitChar(n % 10)]
  }

  /** The number a string of decimal digits denotes. */
  function DecimalValue(ds: seq<bv8>): nat
  {
    if ds == [] then 0
    else DecimalValue(ds[..|ds| - 1]) * 10 + CharDigit(ds[|ds| - 1])
  }

  /** Reading itoa's digits back gives the number. */
  lemma {:induction false} DecimalDigitsValue(n: nat)
    ensures DecimalValue(DecimalDigits(n)) == n
    decreases n
  {
    var ds := DecimalDigits(n);
    if n >= 10 {
      var q := n / 10;
      DecimalDigitsValue(q);
      assert ds[..|ds| - 1] == DecimalDigits(q);
      DigitRoundTrip(n % 10);
      assert DecimalValue(ds) == q * 10 + n % 10;
    } else {
      assert ds[..0] == [];
      DigitRoundTrip(n);
    }
  }

  /** The buffer itoa fills for base 10: the digits of `n` and a terminating NUL. */
  function Itoa(n: nat): (r: seq<bv8>)
    ensures 0 in r && r[|r| - 1] == 0
  {
    DecimalDigits(n) + [0]
  }

  /** `k` zero characters. */
  function Zeros(k: nat): (r: seq<bv8>)
    ensures |r| == k && forall i :: 0 <= i < k ==> r[i] == CHAR_0
  {
    seq(k, _ => CHAR_0)
  }

  lemma ZerosTrace(k: nat)
    ensures DataTrace(Zeros(k + 1)) == DataTrace(Zeros(k)) + Serialise([DataByte(CHAR_0)])
  {
    assert Zeros(k + 1) == Zeros(k) + [CHAR_0];
    DataTraceSnoc(Zeros(k), CHAR_0);
  }

  lemma DigitRoundTrip(d: nat)
    requires d < 10
    ensures CharDigit(DigitChar(d)) == d
  {
  }

  /** A value below 1000 as three decimal digits, left-padded with zeros. */
  function ThreeDigits(v: nat): (r: seq<bv8>)
    requires v < 1000
    ensures |r| == 3
    ensures forall i :: 0 <= i < 3 ==> CHAR_0 <= r[i] <= CHAR_0 + 9
  {
    [DigitChar(v / 10 / 10), DigitChar(v / 10 % 10), DigitChar(v % 10)]
  }

  /** The three digits denote the value. */
  lemma ThreeDigitsValue(v: nat)
    requires v < 1000
    ensures DecimalValue(ThreeDigits(v)) == v
  {
    var r := ThreeDigits(v);
    var q := v / 10;
    DigitRoundTrip(q / 10);
    DigitRoundTrip(q % 10);
    DigitRoundTrip(v % 10);
    assert DecimalValue(r[..1]) == q / 10 by {
      assert r[..1][..0] == [];
    }
    assert DecimalValue(r[..2]) == q by {
      assert r[..2][..1] == r[..1];
      assert q == (q / 10) * 10 + q % 10;
    }
    assert DecimalValue(r) == q * 10 + v % 10;
  }

  /** A byte has at most three digits, and zero-padding them gives the three digits. */
  lemma PaddedDigits(v: nat)
    requires v < 256
    ensures |DecimalDigits(v)| <= 3
    ensures Zeros(3 - |DecimalDigits(v)|) + DecimalDigits(v) == ThreeDigits(v)
  {
    var q := v / 10;
    if v < 10 {
      assert q == 0 && v % 10 == v;
      assert DecimalDigits(v) == [DigitChar(v)];
      assert Zeros(2) == [CHAR_0, CHAR_0];
    } else if v < 100 {
      assert q / 10 == 0 && q % 10 == q;
      assert DecimalDigits(q) == [DigitChar(q)];
      assert DecimalDigits(v) == [DigitChar(q), DigitChar(v % 10)];
      assert Zeros(1) == [CHAR_0];
    } else {
      assert DecimalDigits(q / 10) == [DigitChar(q / 10)];
      assert DecimalDigits(q) == [DigitChar(q / 10), DigitChar(q % 10)];
    }
  }

  /** The mask of bit `7 - i`: the `i`-th bit counted from the most significant. */
  function BitMask(i: nat): bv8
    requires i < 8
  {
    if i == 0 then 0x80 else if i == 1 then 0x40 else if i == 2 then 0x20
    else if i == 3 then 0x10 else if i == 4 then 0x08 else if i == 5 then 0x04
    else if i == 6 then 0x02 else 0x01
  }

  /** Whether the `i`-th bit of `b`, most significant first, is set. */
  predicate MsbFirstBit(b: bv8, i: nat)
    requires i < 8
  {
    b & BitMask(i) != 0
  }

  /** The eight characters '0'/'1' of a byte, most significant bit first. */
  function BinaryDigits(b: bv8): (r: seq<bv8>)
    ensures |r| == 8
    ensures forall i :: 0 <= i < 8 ==> (r[i] == CHAR_1 <==> MsbFirstBit(b, i))
    ensures forall i :: 0 <= i < 8 ==> (r[i] == CHAR_0 || r[i] == CHAR_1)
  {
    seq(8, i requires 0 <= i < 8 => if MsbFirstBit(b, i) then CHAR_1 else CHAR_0)
  }

  /** The byte a string of up to eight '0'/'1' characters denotes. */
  function BinaryValue(ds: seq<bv8>): bv8
    requires |ds| <= 8
  {
    if ds == [] then 0
    else (BinaryValue(ds[..|ds| - 1]) << 1) | (if ds[|ds| - 1] == CHAR_1 then 1 else 0)
  }

  /** The `k` most significant bits of `b`, as a number. */
  function TopBits(b: bv8, k: nat): bv8
    requires k <= 8
  {
    if k == 0 then 0 else if k == 1 then b >> 7 else if k == 2 then b >> 6
    else if k == 3 then b >> 5 else if k == 4 then b >> 4 else if k == 5 then b >> 3
    else if k == 6 then b >> 2 else if k == 7 then b >> 1 else b
  }

  lemma TopBitsStep(b: bv8, k: nat)
    requires 0 < k <= 8
    ensures TopBits(b, k) == (TopBits(b, k - 1) << 1) | (if MsbFirstBit(b, k - 1) then 1 else 0)
  {
  }

  lemma {:induction false} BinaryPrefixValue(b: bv8, k: nat)
    requires k <= 8
    ensures BinaryValue(BinaryDigits(b)[..k]) == TopBits(b, k)
  {
    if k > 0 {
      BinaryPrefixValue(b, k - 1);
      assert BinaryDigits(b)[..k][..k - 1] == BinaryDigits(b)[..k - 1];
      TopBitsStep(b, k);
    }
  }

  /** Reading the eight characters back gives the byte. */
  lemma BinaryRoundTrip(b: bv8)
    ensures BinaryValue(BinaryDigits(b)) == b
  {
    BinaryPrefixValue(b, 8);
    assert BinaryDigits(b)[..8] == BinaryDigits(b);
  }

  /** `b` shifted left by `i` places, as the display loop does step by step. */
  function ShiftedLeft(b: bv8, i: nat): bv8
    requires i <= 8
  {
    if i == 0 then b else if i == 1 then b << 1 else if i == 2 then b << 2
    else if i == 3 then b << 3 else if i == 4 then b << 4 else if i == 5 then b << 5
    else if i == 6 then b << 6 else if i == 7 then b << 7 else 0
  }

  /** Shifting left by `i` brings the `i`-th most significant bit to bit 7. */
  lemma ShiftedLeftStep(b: bv8, i: nat)
    requires i < 8
    ensures ShiftedLeft(b, i) & 0x80 != 0 <==> MsbFirstBit(b, i)
    ensures ShiftedLeft(b, i) << 1 == ShiftedLeft(b, i + 1)
  {
  }

  /** The Set-CGRAM-address instruction for the first row of user character `code`. */
  function CgramCommand(code: bv8): (r: bv8)
    ensures code < 8 ==> r & 0xC0 == SET_CGADR && r & 0x3F == code * 8
  {
    SET_CGADR | (code << 3)
  }

  /** The longest prefix of `s` without a NUL: the C string stored in `s`. */
  function CString(s: seq<bv8>): (r: seq<bv8>)
    ensures |r| <= |s| && r == s[..|r|]
    ensures 0 !in r
    ensures |r| < |s| ==> s[|r|] == 0
  {
    if s == [] || s[0] == 0 then []
    else [s[0]] + CString(s[1..])
  }

  /** A string without NUL, terminated by one, is read back whole. */
  lemma {:induction false} CStringTerminated(b: seq<bv8>)
    requires 0 !in b
    ensures CString(b + [0]) == b
  {
    if b != [] {
      assert (b + [0])[1..] == b[1..] + [0];
      CStringTerminated(b[1..]);
    }
  }

  /**
   * Zero padding followed by itoa's digits, as the driver writes them, is
   * the three-digit form.
   */
  lemma NumText(v: nat)
    requires v < 256
    ensures |CString(Itoa(v))| <= 3
    ensures DataTrace(Zeros(3 - |CString(Itoa(v))|)) + DataTrace(CString(Itoa(v)))
            == DataTrace(ThreeDigits(v))
  {
    var digits := DecimalDigits(v);
    assert 0 !in digits by {
      forall k | 0 <= k < |digits| ensures digits[k] != 0 { }
    }
    CStringTerminated(digits);
    assert CString(Itoa(v)) == digits;
    PaddedDigits(v);
    DataTraceAppend(Zeros(3 - |digits|), digits);
  }

  // ---------------------------------------------------------------------
  // The driver

  class Display {
    /** The port-D output register. */
    var port: bv8
    /** Every strobe the display has latched, oldest first. */
    var trace: seq<Latch>

    constructor (port0: bv8)
      ensures port == port0 && trace == []
    {
      port := port0;
      trace := [];
    }

    /** An enable pulse: the display latches RS and DB4-DB7. */
    method Enable()
      modifies this
      ensures port == old(port) & !PIN_EN
      ensures trace == old(trace) + [Sampled(old(port))]
    {
      port := port | PIN_EN;
      trace := trace + [Sampled(port)];
      port := port & !PIN_EN;
    }

    /** Drives all four data pins low. */
    method ClearDataPins()
      modifies this`port
      ensures port == old(port) & !DATA_PINS
    {
      port := port & !PIN_BIT0;
      port := port & !PIN_BIT1;
      port := port & !PIN_BIT2;
      port := port & !PIN_BIT3;
    }

    /** Drives high the data pins of the bits 4-7 set in `d`, on cleared data pins. */
    method SetDataPins(d: bv8)
      requires port & DATA_PINS == 0
      modifies this`port
      ensures PinsNibble(port) == High(d)
      ensures port & !DATA_PINS == old(port)
    {
      if d & 16 != 0 { port := port | PIN_BIT0; }
      if d & 32 != 0 { port := port | PIN_BIT1; }
      if d & 64 != 0 { port := port | PIN_BIT2; }
      if d & 128 != 0 { port := port | PIN_BIT3; }
    }

    /** Sends bits 4-7 of `data` on DB4-DB7 and strobes it. */
    method Out(data: bv8)
      modifies this
      ensures trace == old(trace) + [Latch(old(port) & PIN_RS != 0, High(data))]
      ensures PinsNibble(port) == High(data) && port & PIN_EN == 0
      ensures port & !(DATA_PINS | PIN_EN) == old(port) & !(DATA_PINS | PIN_EN)
    {
      var d := data & 0xF0;
      ClearDataPins();
      SetDataPins(d);
      assert PinsNibble(port & !PIN_EN) == PinsNibble(port);
      Enable();
    }

    /** Writes one byte to display memory. */
    method Data(data: bv8)
      modifies this
      ensures trace == old(trace) + Serialise([DataByte(data)])
      ensures port & PIN_RS != 0 && port & PIN_EN == 0
      ensures port & !LCD_PINS == old(port) & !LCD_PINS
    {
      port := port | PIN_RS;
      Out(data);
      Out(data << 4);
    }

    /** Sends one instruction. */
    method Command(data: bv8)
      modifies this
      ensures trace == old(trace) + Serialise([Instruction(data)])
      ensures port & PIN_RS == 0 && port & PIN_EN == 0
      ensures port & !LCD_PINS == old(port) & !LCD_PINS
    {
      port := port & !PIN_RS;
      Out(data);
      Out(data << 4);
    }

    method Clear()
      modifies this
      ensures trace == old(trace) + Serialise([Instruction(CLEAR_DISPLAY)])
      ensures port & !LCD_PINS == old(port) & !LCD_PINS
    {
      Command(CLEAR_DISPLAY);
    }

    method Home()
      modifies this
      ensures trace == old(trace) + Serialise([Instruction(CURSOR_HOME)])
      ensures port & !LCD_PINS == old(port) & !LCD_PINS
    {
      Command(CURSOR_HOME);
    }

    /**
     * The power-up sequence: three soft resets and the switch to 4-bit mode
     * as single strobes, then 4-bit/two-line/5x7, display on, cursor
     * increment, and clear.
     */
    method Init()
      modifies this
      ensures trace == old(trace)
                       + [Latch(false, High(SOFT_RESET)), Latch(false, High(SOFT_RESET)),
                          Latch(false, High(SOFT_RESET)), Latch(false, High(SET_FUNCTION))]
                       + Serialise([Instruction(SET_FUNCTION | FUNCTION_4BIT | FUNCTION_2LINE | FUNCTION_5X7),
                                    Instruction(SET_DISPLAY | DISPLAY_ON | CURSOR_OFF | BLINKING_OFF),
                                    Instruction(SET_ENTRY | ENTRY_INCREASE | ENTRY_NOSHIFT),
                                    Instruction(CLEAR_DISPLAY)])
      ensures port & !LCD_PINS == old(port) & !LCD_PINS
    {
      port := port & !LCD_PINS;
      Out(SOFT_RESET);
      assert PinsNibble(port & !PIN_EN) == PinsNibble(port) && port & PIN_RS == 0;
      Enable();
      assert PinsNibble(port & !PIN_EN) == PinsNibble(port) && port & PIN_RS == 0;
      Enable();
      Out(SET_FUNCTION | FUNCTION_4BIT);
      ghost var resets := trace;
      assert resets == old(trace)
                       + [Latch(false, High(SOFT_RESET)), Latch(false, High(SOFT_RESET)),
                          Latch(false, High(SOFT_RESET)), Latch(false, High(SET_FUNCTION))];
      Command(SET_FUNCTION | FUNCTION_4BIT | FUNCTION_2LINE | FUNCTION_5X7);
      ghost var sent := [Instruction(SET_FUNCTION | FUNCTION_4BIT | FUNCTION_2LINE | FUNCTION_5X7)];
      Command(SET_DISPLAY | DISPLAY_ON | CURSOR_OFF | BLINKING_OFF);
      SentOneMore(resets, sent, Instruction(SET_DISPLAY | DISPLAY_ON | CURSOR_OFF | BLINKING_OFF));
      sent := sent + [Instruction(SET_DISPLAY | DISPLAY_ON | CURSOR_OFF | BLINKING_OFF)];
      Command(SET_ENTRY | ENTRY_INCREASE | ENTRY_NOSHIFT);
      SentOneMore(resets, sent, Instruction(SET_ENTRY | ENTRY_INCREASE | ENTRY_NOSHIFT));
      sent := sent + [Instruction(SET_ENTRY | ENTRY_INCREASE | ENTRY_NOSHIFT)];
      Clear();
      SentOneMore(resets, sent, Instruction(CLEAR_DISPLAY));
      assert sent + [Instruction(CLEAR_DISPLAY)]
             == [Instruction(SET_FUNCTION | FUNCTION_4BIT | FUNCTION_2LINE | FUNCTION_5X7),
                 Instruction(SET_DISPLAY | DISPLAY_ON | CURSOR_OFF | BLINKING_OFF),
                 Instruction(SET_ENTRY | ENTRY_INCREASE | ENTRY_NOSHIFT),
                 Instruction(CLEAR_DISPLAY)];
    }

    /** Moves the cursor to column `x` of line `y`; a line outside 1..4 is ignored. */
    method SetCursor(x: bv8, y: bv8)
      modifies this
      ensures trace == old(trace) + match CursorCommand(x, y)
                                    case Some(c) => Serialise([Instruction(c)])
                                    case None => []
      ensures CursorCommand(x, y).None? ==> port == old(port)
      ensures port & !LCD_PINS == old(port) & !LCD_PINS
    {
      var data: bv8;
      if y == 1 {
        data := SET_DDADR + DDADR_LINE1 + x;
      } else if y == 2 {
        data := SET_DDADR + DDADR_LINE2 + x;
      } else if y == 3 {
        data := SET_DDADR + DDADR_LINE3 + x;
      } else if y == 4 {
        data := SET_DDADR + DDADR_LINE4 + x;
      } else {
        return;
      }
      Command(data);
    }

    /** Writes the characters of the NUL-terminated string `s`, without the NUL. */
    method String(s: seq<bv8>)
      requires 0 in s
      modifies this
      ensures trace == old(trace) + DataTrace(CString(s))
      ensures port & !LCD_PINS == old(port) & !LCD_PINS
    {
      var i := 0;
      while s[i] != 0
        invariant 0 <= i <= |CString(s)| < |s|
        invariant s[..i] == CString(s)[..i]
        invariant trace == old(trace) + DataTrace(s[..i])
        invariant port & !LCD_PINS == old(port) & !LCD_PINS
        decreases |CString(s)| - i
      {
        Data(s[i]);
        assert s[..i + 1] == s[..i] + [s[i]];
        DataTraceSnoc(s[..i], s[i]);
        Regroup(old(trace), DataTrace(s[..i]), Serialise([DataByte(s[i])]));
        i := i + 1;
      }
      assert s[..i] == CString(s);
    }

    /** Writes a byte as three decimal digits, left-padded with '0'. */
    method Num(number: bv8)
      modifies this
      ensures trace == old(trace) + DataTrace(ThreeDigits(number as nat))
      ensures port & !LCD_PINS == old(port) & !LCD_PINS
    {
      var v := number as nat;
      var buffer := Itoa(v);
      var numDigits := |CString(buffer)|;  // strlen
      NumText(v);
      var i := 0;
      while i < 3 - numDigits
        invariant 0 <= i <= 3 - numDigits
        invariant trace == old(trace) + DataTrace(Zeros(i))
        invariant port & !LCD_PINS == old(port) & !LCD_PINS
      {
        Data(CHAR_0);
        ZerosTrace(i);
        Regroup(old(trace), DataTrace(Zeros(i)), Serialise([DataByte(CHAR_0)]));
        i := i + 1;
      }
      String(buffer);
      Regroup(old(trace), DataTrace(Zeros(i)), DataTrace(CString(buffer)));
    }

    /** Writes '1' for a non-zero argument and '0' for zero. */
    method Bit(expr: bv8)
      modifies this
      ensures trace == old(trace) + Serialise([DataByte(if expr != 0 then CHAR_1 else CHAR_0)])
      ensures port & !LCD_PINS == old(port) & !LCD_PINS
    {
      if expr != 0 {
        Data(CHAR_1);
      } else {
        Data(CHAR_0);
      }
    }

    /** Writes a byte as eight binary digits, most significant bit first. */
    method Byte(byte: bv8)
      modifies this
      ensures trace == old(trace) + DataTrace(BinaryDigits(byte))
      ensures port & !LCD_PINS == old(port) & !LCD_PINS
    {
      var b := byte;
      var i := 0;
      while i < 8
        invariant 0 <= i <= 8
        invariant b == ShiftedLeft(byte, i)
        invariant trace == old(trace) + DataTrace(BinaryDigits(byte)[..i])
        invariant port & !LCD_PINS == old(port) & !LCD_PINS
      {
        Bit(b & 0x80);
        ShiftedLeftStep(byte, i);
        var digits := BinaryDigits(byte);
        assert digits[..i + 1] == digits[..i] + [digits[i]];
        DataTraceSnoc(digits[..i], digits[i]);
        Regroup(old(trace), DataTrace(digits[..i]), Serialise([DataByte(digits[i])]));
        b := b << 1;
        i := i + 1;
      }
      assert BinaryDigits(byte)[..8] == BinaryDigits(byte);
    }

    /** Loads the eight rows `data[0..8]` into user character `code` of CGRAM. */
    method GenerateChar(code: bv8, data: seq<bv8>)
      requires |data| >= 8
      modifies this
      ensures trace == old(trace) + Serialise([Instruction(CgramCommand(code))]) + DataTrace(data[..8])
      ensures port & !LCD_PINS == old(port) & !LCD_PINS
    {
      Command(SET_CGADR | (code << 3));
      var i := 0;
      while i < 8
        invariant 0 <= i <= 8
        invariant trace == old(trace) + Serialise([Instruction(CgramCommand(code))]) + DataTrace(data[..i])
        invariant port & !LCD_PINS == old(port) & !LCD_PINS
      {
        Data(data[i]);
        assert data[..i + 1] == data[..i] + [data[i]];
        DataTraceSnoc(data[..i], data[i]);
        Regroup(old(trace) + Serialise([Instruction(CgramCommand(code))]), DataTrace(data[..i]),
                Serialise([DataByte(data[i])]));
        i := i + 1;
      }
    }
  }
}
