# usb-rotaries in Dafny

A verified model of the logic in the usb-rotaries AVR firmware. The firmware
reads rotary encoders and buttons through a shift register, reports them to the
host as a V-USB HID game pad, and drives a second HD44780 character display in
4-bit mode. The model has three modules, one per source file:

- `Encoder` (Encoder.dfy) models `encoder_events` from encoder.c.
  - It is the quadrature and button decoder: it compares two state bytes and
    returns a bitmask of BUTTON_DOWN, BUTTON_UP, LEFT and RIGHT events.
  - It is a pure function, specified bit by bit.
  - The file also walks the field through the NORTH, EAST, SOUTH, WEST cycle
    and counts the rotation events.
- `Firmware` (Firmware.dfy) models the logic of main.c that is not register
  plumbing:
  - the active-low mapping from the shifted-in byte to the HID report;
  - the divide-by-six debounce divider driven by timer-0 overflows;
  - the HID class-request table of `usbFunctionSetup`;
  - one pass of the main loop, which hands the report to the interrupt
    endpoint.

  The static variables are fields of class `Firmware.Device`. "The timer
  overflowed" and "the interrupt endpoint is ready" are parameters. Reports
  handed to `usbSetInterrupt` are appended to the field `sent`.
- `Lcd2` (Lcd2.dfy) models the display driver in lcd2-routines.c.
  - Port D is a byte field that the routines read, modify and write, as the C
    code does.
  - What the display sees is a trace of `(RS, DB4-DB7)` values, one per enable
    strobe.
  - `Serialise`/`Deserialise` state what the display makes of such a trace.
  - Every routine states the strobes it appends, in terms of the characters or
    instructions it sends.

Where the comments disagree with the code, the model follows the code:

- encoder.h:19-20 calls NORTH -> EAST -> SOUTH -> WEST a "right rotation".
  The code reports that cycle as `ECEV_LEFT` (encoder.c:12-14), and
  `Encoder.DetentCount` proves that behaviour.
- The pin comments at lcd2-routines.h:40, 48 and 51 name DB4-DB7 = PD0-PD3,
  RS = PD4 and EN = PD5. The defines at lcd2-routines.h:43-52 use
  DB4 = PD5, DB5 = PD7, DB6 = PD6, DB7 = PD1, RS = PD0 and EN = PD4, and the
  model uses the defines.
- lcd2-routines.h:107 says the pattern of `lcd2_generatechar` is an array of
  five bytes. The loop reads eight (lcd2-routines.c:214-217), so the model
  requires at least eight.

The V-USB request constants (`USBRQ_TYPE_MASK`, `USBRQ_TYPE_CLASS` and the
HID request codes) come from usbdrv.h, which is not part of this model. Their
values are those of section 9.3 of the USB 2.0 specification and section 7.2
of the HID 1.11 specification.

## Model

| member | source | states |
|---|---|---|
| Encoder.Events | encoder.c:3-21 | the result uses only bits 0-3; BUTTON_DOWN iff bit 0 goes from 1 to 0, BUTTON_UP iff it goes from 0 to 1, LEFT iff the encoder field goes EAST to SOUTH, RIGHT iff WEST to SOUTH |
| Encoder.NoChangeNoEvent | encoder.c:7-18 | equal old and new state bytes give ECEV_NONE |
| Encoder.EventsExclusive | encoder.c:7-18 | BUTTON_DOWN and BUTTON_UP are never both set, nor LEFT and RIGHT |
| Encoder.HighBitsIgnored | encoder.c:7-18 | bits 3-7 of either state byte never change the result |
| Encoder.FieldsIndependent | encoder.c:7-18 | button events depend only on bit 0, rotation events only on bits 1-2 |
| Encoder.RotationOnlyOnSouthArrival | encoder.c:12-18 | a rotation needs arrival at SOUTH from another position; no step into or out of NORTH is a rotation |
| Encoder.PositionOf | encoder.h:15-24 | the two encoder bits name exactly one of the four positions |
| Encoder.StateByte | encoder.h:15-24 | placing a position into a byte sets the encoder field and keeps every other bit |
| Encoder.Pred | encoder.h:19-24 | the reverse step undoes the forward step of the cycle |
| Encoder.DetentSteps | encoder.c:12-18 | of the four steps of one cycle exactly one reports a rotation: LEFT going NORTH -> EAST -> SOUTH -> WEST, RIGHT the other way |
| Encoder.OneDetent | encoder.c:12-18 | four more steps in one direction add exactly one event of that direction's kind and none of the other |
| Encoder.DetentCount | encoder.c:12-18 | n full cycles NORTH -> EAST -> SOUTH -> WEST give exactly n LEFT and no RIGHT events, n reverse cycles exactly n RIGHT and no LEFT, whatever the button bit |
| Firmware.ButtonBits | main.c:166-167 | report bit 0 is set iff input bit 0 is low, bit 1 iff input bit 3 is low, no other bit |
| Firmware.UpdatedReport | main.c:166-167 | the loop body rewrites report bits 0-1 to the button bits of the input and keeps bits 2-7 |
| Firmware.ReportFollowsLastInput | main.c:166-167 | after any number of loop passes the report is the initial bits 2-7 plus the button bits of the last byte read, so a report starting at 0 (main.c:24) keeps bits 2-7 clear |
| Firmware.TimerStep | main.c:52-63 | no overflow changes nothing; a counter in 0..5 stays in 0..5, advances modulo 6, and sets the flag exactly on wrapping |
| Firmware.StepCarries | main.c:56-61 | one poll moves one overflow of the running total into the counter, or into the flag when the counter wraps |
| Firmware.TimerDividesBySix | main.c:52-63 | after any run of polls the counter is (start + overflows) mod 6, and the flag was set (start + overflows) div 6 times |
| Firmware.Setup | main.c:101-121 | the reply has length 1 iff the request is a class GET_REPORT or GET_IDLE; its source is idleRate iff GET_IDLE; SET_IDLE stores the high byte of wValue; everything else answers 0 bytes and keeps idleRate |
| Firmware.Device.constructor | main.c:41-47 | the static initial values: empty report (main.c:24), idle rate 0, newReport 0, debounce flag set, counter 0 (main.c:54) |
| Firmware.Device.UpdateReport | main.c:164-167 | the report's bit 0 is set iff input bit 0 is low, bit 1 iff input bit 3 is low; bits 2-7 are unchanged |
| Firmware.Device.TimerPoll | main.c:52-63 | the counter and the flag follow `TimerStep`; no overflow changes neither; the debounce flag is never cleared |
| Firmware.Device.UsbFunctionSetup | main.c:101-121 | stores the new idle rate of `Setup`; GET_REPORT answers the report byte, GET_IDLE the idle rate, and the answer is empty exactly when `Setup` gives length 0 |
| Firmware.Device.MainLoopIteration | main.c:164-179 | keeps the device invariant; the report follows the input; a report is handed over only when the endpoint is ready and newReport is 0, at most one per pass, and it is the button bits of the byte just read |
| Lcd2.Serialise | lcd2-routines.c:102-122 | every byte becomes two strobes, high nibble first, RS set for data and clear for instructions |
| Lcd2.DeserialiseSerialise | lcd2-routines.c:102-122 | the display reassembles exactly the bytes sent, in order, each with its kind |
| Lcd2.SerialiseDeserialise | lcd2-routines.c:102-122 | every strobe trace the display reads as bytes is the serialisation of those bytes |
| Lcd2.SerialiseAppend | lcd2-routines.c:102-122 | sending two runs of bytes one after the other gives the two strobe traces one after the other |
| Lcd2.DataTraceAppend | lcd2-routines.c:175-179 | the strobes of two strings written in turn are those of their concatenation |
| Lcd2.CursorCommand | lcd2-routines.c:143-170 | a command exists iff 1 <= y <= 4; for a column below 16 it is a Set-DDRAM-address instruction for line base + x |
| Lcd2.CursorCellsDistinct | lcd2-routines.h:75-78 | distinct cells of the 16 x 4 display get distinct addresses |
| Lcd2.DecimalDigits | lcd2-routines.c:183 | itoa's base-10 text: at least one digit character, no leading zero |
| Lcd2.DecimalDigitsValue | lcd2-routines.c:183 | reading itoa's digits back gives the number |
| Lcd2.Itoa | lcd2-routines.c:182-184 | the buffer filled by itoa is NUL-terminated |
| Lcd2.ThreeDigits | lcd2-routines.c:181-188 | three digit characters |
| Lcd2.ThreeDigitsValue | lcd2-routines.c:181-188 | the three digits denote the number |
| Lcd2.PaddedDigits | lcd2-routines.c:183-187 | a byte has at most three decimal digits, and '0' padding to three gives `ThreeDigits` |
| Lcd2.NumText | lcd2-routines.c:181-188 | strlen of the buffer is at most 3, so the padding count is never negative; padding followed by the string is the three-digit text |
| Lcd2.BinaryDigits | lcd2-routines.c:197-202 | eight characters '0'/'1'; character i is '1' iff bit 7-i of the byte is set |
| Lcd2.BinaryRoundTrip | lcd2-routines.c:197-202 | reading the eight characters back gives the byte |
| Lcd2.ShiftedLeftStep | lcd2-routines.c:199-201 | after i shifts, bit 7 of the working byte is bit 7-i of the argument |
| Lcd2.CgramCommand | lcd2-routines.c:211 | for codes 0-7, a Set-CGRAM-address instruction for row 0 of the character |
| Lcd2.CString | lcd2-routines.c:175-179 | the longest NUL-free prefix of the buffer: a prefix without NUL, followed by NUL when shorter |
| Lcd2.CStringTerminated | lcd2-routines.c:175-179 | a NUL-free string with a terminating NUL reads back whole |
| Lcd2.Display.constructor | lcd2-routines.h:41 | the port starts at any value and nothing is latched yet |
| Lcd2.Display.Enable | lcd2-routines.c:16-21 | one strobe latches RS and DB4-DB7 as they are on the port; EN is low again afterwards and nothing else changes |
| Lcd2.Display.ClearDataPins | lcd2-routines.c:29-32 | the four data pins go low; every other pin is kept |
| Lcd2.Display.SetDataPins | lcd2-routines.c:34-41 | bits 4-7 of the argument go onto DB4-DB7; every other pin is kept |
| Lcd2.Display.Out | lcd2-routines.c:25-44 | exactly one strobe carrying bits 4-7 of the argument with the current RS; EN ends low and RS and the other pins are kept |
| Lcd2.Display.Data | lcd2-routines.c:102-110 | exactly the two strobes of one data byte, RS = 1, high nibble first; RS stays high and no other pin changes |
| Lcd2.Display.Command | lcd2-routines.c:114-122 | exactly the two strobes of one instruction, RS = 0, high nibble first |
| Lcd2.Display.Clear | lcd2-routines.c:126-130 | the strobes of the Clear-Display instruction |
| Lcd2.Display.Home | lcd2-routines.c:134-138 | the strobes of the Cursor-Home instruction |
| Lcd2.Display.Init | lcd2-routines.c:48-98 | three soft-reset strobes, the single 4-bit-mode strobe, then function set, display on, entry mode and clear as full instructions; pins outside the display's are kept |
| Lcd2.Display.SetCursor | lcd2-routines.c:143-170 | the strobes of `CursorCommand` when the line is 1-4; otherwise nothing at all, the port included |
| Lcd2.Display.String | lcd2-routines.c:175-179 | one data write per character, in order, stopping before the NUL |
| Lcd2.Display.Num | lcd2-routines.c:181-188 | exactly the data writes of the three-digit zero-padded decimal form of the byte |
| Lcd2.Display.Bit | lcd2-routines.c:190-195 | one data write: '1' iff the argument is non-zero, otherwise '0' |
| Lcd2.Display.Byte | lcd2-routines.c:197-202 | exactly the eight data writes of `BinaryDigits`, most significant bit first |
| Lcd2.Display.GenerateChar | lcd2-routines.c:208-218 | the Set-CGRAM-address instruction for the code, then data writes of the first eight pattern bytes, in order |

## Left out

- Register-level hardware (main.c:71-95 and 127-135): SPI set-up, the `readByteSpi` wait for SPIF and the `parallelIn` latch pulse. The byte read is a parameter of `MainLoopIteration`.
- TIFR0: the overflow test and the write that clears it become the boolean `overflow`.
- The data-direction registers, in `hardwareInit` and at lcd2-routines.c:57. Only the port register is modelled.
- All `_delay_us`/`_delay_ms` calls and the execution times in lcd2-routines.h:57-68. They are timing, not logic.
- V-USB, an external library: `usbInit`, `usbPoll`, `usbDeviceDisconnect`/`usbDeviceConnect`, `usbInterruptIsReady` and `usbSetInterrupt`. Readiness is a parameter, and handing over a report appends it to `sent`.
- `usbMsgPtr` becomes the reply bytes returned by `UsbFunctionSetup`. The sizes of its output are modelled; driver-side transmission is not.
- The HID report descriptor (main.c:26-39): a constant byte array with no logic of its own.
- Watchdog calls, `sei`, the fake-disconnect countdown (main.c:145-159) and the endless `for (;;)`. One pass of the loop is `MainLoopIteration`.
- `buildReport` (main.c:137-139): its body is empty, so calls to it are omitted.
- The debounced button check (main.c:172-174): its only statement is commented out.
- `buttonState` and `buttonChanged` (main.c:44-45): they are declared but never used.
- Interrupt concurrency around `debounceTimeIsOver`: the model is sequential.
- itoa's own algorithm: `Lcd2.DecimalDigits` specifies its result (the decimal digits without leading zeros), not its implementation.
- `Firmware.Device.MainLoopIteration` writes the whole report through `UpdateReport`. The C code updates `reportBuffer[0]` through a one-element array, and aliasing is not modelled.
- `Lcd2.Display.GenerateChar` requires eight pattern bytes. The C code reads `data[0..7]` with no bound to check, so a shorter array is undefined behaviour there and is not modelled.
- `Lcd2.CursorCommand` states the instruction's bit layout only for columns 0-15, the documented range. For larger columns its body keeps the 8-bit wrap-around sum of the C code, but no property is stated.
