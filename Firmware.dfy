/**
 * The logic of the firmware's main loop: the HID button report built from
 * the shifted-in input byte, the debounce divider driven by timer-0
 * overflows, the answer to HID class requests, and one pass of the main
 * loop. The SPI shift-in, the timer registers and the USB driver are
 * abstracted: the input byte, "an overflow occurred" and "the interrupt
 * endpoint is ready" are parameters, and each report handed to the driver is
 * appended to a trace.
 */
module Firmware {

  // Request fields and HID class requests (section 9.3 of the USB 2.0
  // specification, section 7.2 of the HID 1.11 specification).
  const USBRQ_TYPE_MASK: bv8 := 0x60
  const USBRQ_TYPE_CLASS: bv8 := 0x20
  const USBRQ_HID_GET_REPORT: bv8 := 0x01
  const USBRQ_HID_GET_IDLE: bv8 := 0x02
  const USBRQ_HID_SET_IDLE: bv8 := 0x0A

  /** sizeof(reportBuffer): the report is one byte of eight buttons. */
  const REPORT_SIZE: bv8 := 1

  /** Overflows of timer 0 (about 22 ms each) per debounce period. */
  const DEBOUNCE_OVERFLOWS: bv16 := 6

  // ---------------------------------------------------------------------
  // The button report

  /**
   * The button bits of the report for an input byte: button 1 follows input
   * bit 0, button 2 input bit 3, both pressed when the line is low.
   */
  function ButtonBits(input: bv8): (r: bv8)
    ensures r & !0x03 == 0
    ensures r & 0x01 != 0 <==> input & 0x01 == 0
    ensures r & 0x02 != 0 <==> input & 0x08 == 0
  {
    (if input & 0x01 == 0 then 0x01 else 0x00) | (if input & 0x08 == 0 then 0x02 else 0x00)
  }

  /** The report after the main loop has read `input`: bits 0 and 1 are rewritten, the rest kept. */
  function UpdatedReport(report: bv8, input: bv8): (r: bv8)
    ensures r & 0x03 == ButtonBits(input)
    ensures r & !0x03 == report & !0x03
  {
    var r1 := if input & 0x01 == 0 then report | 0x01 else report & !0x01;
    if input & 0x08 == 0 then r1 | 0x02 else r1 & !0x02
  }

  /** The report after reading every byte of `inputs` in turn. */
  function ReportAfter(report: bv8, inputs: seq<bv8>): bv8
    decreases |inputs|
  {
    if inputs == [] then report
    else ReportAfter(UpdatedReport(report, inputs[0]), inputs[1..])
  }

  /**
   * The report reflects only the last byte read: its button bits are that
   * byte's, and every other bit is as it was at the start (so a report that
   * starts at 0 keeps bits 2-7 clear for ever).
   */
  lemma {:induction false} ReportFollowsLastInput(report: bv8, inputs: seq<bv8>)
    requires inputs != []
    ensures ReportAfter(report, inputs) == (report & !0x03) | ButtonBits(inputs[|inputs| - 1])
    decreases |inputs|
  {
    var next := UpdatedReport(report, inputs[0]);
    if |inputs| > 1 {
      ReportFollowsLastInput(next, inputs[1..]);
      assert next & !0x03 == report & !0x03;
    }
  }

  // ---------------------------------------------------------------------
  // The debounce divider

  /**
   * One call of the timer poll: the new 16-bit counter and whether the
   * debounce flag is set by it.
   */
  function TimerStep(cnt: bv16, overflow: bool): (r: (bv16, bool))
    ensures !overflow ==> r == (cnt, false)
    ensures cnt < DEBOUNCE_OVERFLOWS ==> r.0 < DEBOUNCE_OVERFLOWS
    ensures overflow && cnt < DEBOUNCE_OVERFLOWS ==>
              r.0 as int == (cnt as int + 1) % 6 && (r.1 <==> cnt == DEBOUNCE_OVERFLOWS - 1)
  {
    if !overflow then (cnt, false)
    else
      var next := cnt + 1;  // ++ on an unsigned 16-bit counter
      if next >= DEBOUNCE_OVERFLOWS then (0, true) else (next, false)
  }

  /** How many of the polls saw an overflow. */
  function Overflows(overflows: seq<bool>): nat
  {
    if overflows == [] then 0
    else (if overflows[0] then 1 else 0) + Overflows(overflows[1..])
  }

  /** The counter after a run of polls, and how often the debounce flag was set. */
  function TimerRun(cnt: bv16, overflows: seq<bool>): (bv16, nat)
    decreases |overflows|
  {
    if overflows == [] then (cnt, 0)
    else
      var (next, fired) := TimerStep(cnt, overflows[0]);
      var (last, count) := TimerRun(next, overflows[1..]);
      (last, count + if fired then 1 else 0)
  }

  /**
   * One poll followed by `n` more overflows: the counter and the flag of the
   * step carry the remainder and the quotient of the running total.
   */
  lemma StepCarries(cnt: bv16, overflow: bool, n: nat)
    requires cnt < DEBOUNCE_OVERFLOWS
    ensures var step := TimerStep(cnt, overflow);
            var total := cnt as int + (if overflow then 1 else 0) + n;
            && (step.0 as int + n) % 6 == total % 6
            && (step.0 as int + n) / 6 + (if step.1 then 1 else 0) == total / 6
  {
    if overflow && cnt == DEBOUNCE_OVERFLOWS - 1 {
      // the sixth overflow wraps the counter and fires once
      assert (6 + n) % 6 == n % 6 && (6 + n) / 6 == n / 6 + 1;
    }
  }

  /**
   * The divider counts overflows modulo 6 and sets the debounce flag once
   * for every sixth overflow.
   */
  lemma {:induction false} TimerDividesBySix(cnt: bv16, overflows: seq<bool>)
    requires cnt < DEBOUNCE_OVERFLOWS
    ensures TimerRun(cnt, overflows).0 as int == (cnt as int + Overflows(overflows)) % 6
    ensures TimerRun(cnt, overflows).1 == (cnt as int + Overflows(overflows)) / 6
    decreases |overflows|
  {
    if overflows != [] {
      var step := TimerStep(cnt, overflows[0]);
      TimerDividesBySix(step.0, overflows[1..]);
      StepCarries(cnt, overflows[0], Overflows(overflows[1..]));
    }
  }

  // ---------------------------------------------------------------------
  // HID class requests

  /** Where the driver takes the reply bytes from. */
  datatype MsgSource = ReportBuffer | IdleRate

  /** The answer to a setup packet: reply length, reply source, and the new idle rate. */
  datatype SetupReply = SetupReply(length: bv8, source: MsgSource, idleRate: bv8)

  predicate IsClassRequest(data: seq<bv8>)
    requires |data| == 8
  {
    data[0] & USBRQ_TYPE_MASK == USBRQ_TYPE_CLASS
  }

  /**
   * The decision table for a setup packet (bmRequestType, bRequest,
   * wValue low, wValue high, wIndex, wLength): GET_REPORT answers the
   * report, GET_IDLE the idle rate, SET_IDLE stores the high byte of wValue;
   * every other request has an empty answer and changes nothing.
   */
  function Setup(data: seq<bv8>, idleRate: bv8): (r: SetupReply)
    requires |data| == 8
    ensures r.length == REPORT_SIZE <==>
              IsClassRequest(data) &&
              (data[1] == USBRQ_HID_GET_REPORT || data[1] == USBRQ_HID_GET_IDLE)
    ensures r.length <= 1
    ensures r.source == IdleRate <==> IsClassRequest(data) && data[1] == USBRQ_HID_GET_IDLE
    ensures r.idleRate == if IsClassRequest(data) && data[1] == USBRQ_HID_SET_IDLE
                          then data[3] else idleRate
  {
    if IsClassRequest(data) then
      if data[1] == USBRQ_HID_GET_REPORT then SetupReply(REPORT_SIZE, ReportBuffer, idleRate)
      else if data[1] == USBRQ_HID_GET_IDLE then SetupReply(1, IdleRate, idleRate)
      else if data[1] == USBRQ_HID_SET_IDLE then SetupReply(0, ReportBuffer, data[3])
      else SetupReply(0, ReportBuffer, idleRate)
    else SetupReply(0, ReportBuffer, idleRate)
  }

  // ---------------------------------------------------------------------
  // The device state

  class Device {
    var reportBuffer: bv8
    var idleRate: bv8         // in 4 ms units
    var newReport: bv8
    var debounceTimeIsOver: bv8
    var timerCnt: bv16
    /** Every report handed to the interrupt endpoint, oldest first. */
    var sent: seq<bv8>

    /**
     * What holds from power-up on: only the two button bits of the report
     * are used, the divider counts below 6, the debounce flag is set and
     * `newReport` is 0 (nothing clears the one or sets the other).
     */
    ghost predicate Valid()
      reads this
    {
      && reportBuffer & !0x03 == 0
      && timerCnt < DEBOUNCE_OVERFLOWS
      && debounceTimeIsOver == 1
      && newReport == 0
    }

    /** The static initial values. */
    constructor ()
      ensures Valid()
      ensures reportBuffer == 0 && idleRate == 0 && timerCnt == 0 && sent == []
    {
      reportBuffer := 0;
      idleRate := 0;
      newReport := 0;
      debounceTimeIsOver := 1;
      timerCnt := 0;
      sent := [];
    }

    /** Rewrites the two button bits of the report from the input byte. */
    method UpdateReport(input: bv8)
      modifies this`reportBuffer
      ensures reportBuffer == UpdatedReport(old(reportBuffer), input)
      ensures reportBuffer & 0x01 != 0 <==> input & 0x01 == 0
      ensures reportBuffer & 0x02 != 0 <==> input & 0x08 == 0
      ensures reportBuffer & !0x03 == old(reportBuffer) & !0x03
    {
      if input & 0x01 == 0 { reportBuffer := reportBuffer | 0x01; }
      else { reportBuffer := reportBuffer & !0x01; }
      if input & 0x08 == 0 { reportBuffer := reportBuffer | 0x02; }
      else { reportBuffer := reportBuffer & !0x02; }
    }

    /**
     * The timer poll: on an overflow the counter advances, and on reaching 6
     * it restarts at 0 and sets the debounce flag. The flag is never cleared.
     */
    method TimerPoll(overflow: bool)
      modifies this`timerCnt, this`debounceTimeIsOver
      ensures timerCnt == TimerStep(old(timerCnt), overflow).0
      ensures debounceTimeIsOver ==
                if TimerStep(old(timerCnt), overflow).1 then 1 else old(debounceTimeIsOver)
      ensures !overflow ==> timerCnt == old(timerCnt) && debounceTimeIsOver == old(debounceTimeIsOver)
      ensures old(debounceTimeIsOver) == 1 ==> debounceTimeIsOver == 1
    {
      if overflow {
        timerCnt := timerCnt + 1;
        if timerCnt >= DEBOUNCE_OVERFLOWS {
          timerCnt := 0;
          debounceTimeIsOver := 1;
        }
      }
    }

    /**
     * A control request on endpoint 0: applies the decision table and
     * returns the bytes the driver transmits in reply.
     */
    method UsbFunctionSetup(data: seq<bv8>) returns (reply: seq<bv8>)
      requires |data| == 8
      modifies this`idleRate
      ensures idleRate == Setup(data, old(idleRate)).idleRate
      ensures IsClassRequest(data) && data[1] == USBRQ_HID_GET_REPORT ==> reply == [reportBuffer]
      ensures IsClassRequest(data) && data[1] == USBRQ_HID_GET_IDLE ==> reply == [idleRate]
      ensures Setup(data, old(idleRate)).length == 0 <==> reply == []
    {
      var r := Setup(data, idleRate);
      idleRate := r.idleRate;
      var source := if r.source == IdleRate then [idleRate] else [reportBuffer];
      reply := source[..r.length];
    }

    /**
     * One pass of the main loop: read the input byte into the report, hand
     * the report to the interrupt endpoint when it is ready and no report
     * is pending, then poll the timer.
     */
    method MainLoopIteration(input: bv8, interruptReady: bool, overflow: bool)
      requires Valid()
      modifies this
      ensures Valid()
      ensures reportBuffer == UpdatedReport(old(reportBuffer), input)
      ensures sent == old(sent) + (if interruptReady && newReport == 0 then [reportBuffer] else [])
      ensures |sent| <= |old(sent)| + 1
      ensures interruptReady ==> sent == old(sent) + [ButtonBits(input)]
      ensures idleRate == old(idleRate)
      ensures timerCnt == TimerStep(old(timerCnt), overflow).0
    {
      UpdateReport(input);
      // the debounced button check is switched off: nothing happens here
      if interruptReady && newReport == 0 {
        sent := sent + [reportBuffer];
      }
      TimerPoll(overflow);
    }
  }
}
