/** The program of main.c as it runs on the microcontroller: the three output
    ports and the six globals are fields of one `Board`, and each routine
    updates them in place, in the order the C statements do. Every method is
    proved against the functions of `Controller` and `Traces`, where the
    properties of the behaviour are proved. */
module Firmware {
  import opened Bits
  import opened SevenSegment
  import opened Controller
  import opened Traces

  /** `actualizarLEDs`: copies the low four bits of the counter into bits 0-3
      of `ledPort` and leaves its other bits alone. `ledPort` is a copy of the
      caller's port register (C passes it by value), so the result is this
      copy, which the caller never stores; `ledPins` is not used. */
  method UpdateLeds(count: Byte, ledPort: bv8, ledPins: bv8) returns (copy: bv8)
    ensures forall j: bv8 | j < 8 :: Bit(copy, j) == if j < 4 then Bit(count as bv8, j) else Bit(ledPort, j)
  {
    var c := count as bv8;
    copy := ledPort;
    var i: bv8 := 0;
    while i < 4
      invariant i <= 4
      invariant copy == CopyLowBits(ledPort, c, i)
      decreases 4 - i
    {
      // bit i of the copy takes bit i of the counter (main.c:63-67)
      CopyLowBitsStep(ledPort, c, i);
      copy := SetBit(copy, i, Bit(c, i));
      i := i + 1;
    }
    forall j: bv8 | j < 8
      ensures Bit(copy, j) == if j < 4 then Bit(c, j) else Bit(ledPort, j)
    {
      CopyLowBitsAt(ledPort, c, 4, j);
    }
  }

  class Board {
    var portB: bv8
    var portC: bv8
    var portD: bv8
    /** `contador1`, `contador2` */
    var counter1: Byte
    var counter2: Byte
    /** `boton1Presionado`, `boton2Presionado` */
    var latch1: bool
    var latch2: bool
    /** `cuentaRegresivaTerminada` */
    var countdownDone: bool
    /** `conteoCompletado` */
    var complete: bool
    /** The patterns the display lines have carried right after each call of
        `actualizarDisplay`, oldest first. It is not part of the C program:
        it records what the display has shown. */
    ghost var displayLog: seq<bv8>

    ghost function Model(): State
      reads this
    {
      State(Ports(portB, portC, portD), counter1, counter2, latch1, latch2, countdownDone, complete)
    }

    /** The globals as the C start-up code zeroes them, with the ports in
        whatever state the pin set-up left them. */
    constructor (ports: Ports)
      ensures Model() == PowerOn(ports)
      ensures displayLog == []
    {
      portB, portC, portD := ports.portB, ports.portC, ports.portD;
      counter1, counter2 := 0, 0;
      latch1, latch2 := false, false;
      countdownDone, complete := false, false;
      displayLog := [];
    }

    /** `actualizarDisplay`: looks the digit up in `segmentos` and writes its
        pattern to the display lines. */
    method UpdateDisplay(n: nat)
      requires n <= 9
      modifies this`portB, this`portC, this`displayLog
      ensures Model() == old(Model()).(ports := ShowDigit(old(Model()).ports, n))
      ensures displayLog == old(displayLog) + [Encode(n)]
    {
      var pattern := Segments[n];
      WriteSegments(pattern);
      WritePatternDisplays(old(Model()).ports, pattern);
      displayLog := displayLog + [Displayed(Model().ports)];
    }

    /** The body of `actualizarDisplay` after the table lookup: bits 0 to 5 of
        the pattern go to PC0-PC5, one bit at a time, then bit 6 goes to PB4. */
    method WriteSegments(pattern: bv8)
      modifies this`portB, this`portC
      ensures Model() == old(Model()).(ports := WritePattern(old(Model()).ports, pattern))
    {
      var i: bv8 := 0;
      while i < 6
        invariant i <= 6
        invariant portC == CopyLowBits(old(portC), pattern, i)
        invariant portB == old(portB)
        decreases 6 - i
      {
        // PC i takes bit i of the pattern (main.c:76-80)
        CopyLowBitsStep(old(portC), pattern, i);
        portC := SetBit(portC, i, Bit(pattern, i));
        i := i + 1;
      }
      // PB4 takes bit 6 of the pattern (main.c:83-87)
      portB := SetBit(portB, SegmentBitB, Bit(pattern, 6));
    }

    /** The countdown loop of `main`: the digits 5 down to 0 on the display,
        one after the other. */
    method ShowCountdown()
      modifies this`portB, this`portC, this`displayLog
      ensures Model() == old(Model()).(ports := ShowDigits(old(Model()).ports, CountdownDigits))
      ensures displayLog == old(displayLog) + [Encode(5), Encode(4), Encode(3), Encode(2), Encode(1), Encode(0)]
    {
      ghost var start := Model().ports;
      ghost var shown: seq<Digit> := [];
      var i: int := 5;
      while i >= 0
        invariant -1 <= i <= 5
        invariant shown == CountdownDigits[..5 - i]
        invariant displayLog == old(displayLog) + Patterns(shown)
        invariant Model() == old(Model()).(ports := ShowDigits(start, shown))
        decreases i
      {
        UpdateDisplay(i);
        ShowDigitsSnoc(start, shown, i);
        PatternsSnoc(shown, i);
        CountdownPrefix(5 - i);
        shown := shown + [i];
        i := i - 1;
      }
      assert shown == CountdownDigits;
      CountdownPatterns();
    }

    /** The start of `main` after the pin set-up: the countdown loop, then
        the countdown flag set and the display switched off. */
    method Countdown()
      modifies this
      ensures Model() == Controller.Countdown(old(Model()))
      ensures displayLog == old(displayLog) + [Encode(5), Encode(4), Encode(3), Encode(2), Encode(1), Encode(0)]
    {
      ShowCountdown();
      countdownDone := true;
      portC := portC & !SegmentPinsC;
      portB := portB & !(1 << SegmentBitB);
    }

    /** One iteration of the `while (1)` loop with the two button readings
        already decoded: nothing before the countdown has finished or once
        counting is complete, otherwise button 1, then button 2. */
    method Tick(pressed1: bool, pressed2: bool)
      modifies this
      ensures Model() == Step(old(Model()), pressed1, pressed2)
      ensures displayLog == old(displayLog) + StepWrites(old(Model()), pressed1, pressed2)
    {
      if !countdownDone || complete {
        return;
      }
      HandleButton1(pressed1);
      HandleButton2(pressed2);
    }

    /** The block for button 1: on a rising edge the counter is incremented;
        past 15 it stays at 15, all of D4-D7 are lit, counting completes and
        the display shows 1; otherwise `actualizarLEDs` is called. The latch
        records the press and is cleared on release. */
    method HandleButton1(pressed: bool)
      modifies this
      ensures Model() == HandleButton(old(Model()), One, pressed)
      ensures displayLog == old(displayLog) + HandleButtonWrites(old(Model()), One, pressed)
    {
      if pressed && !latch1 {
        counter1 := if counter1 == 255 then 0 else counter1 + 1;
        if counter1 > 15 {
          counter1 := 15;
          portD := portD | LedPins1;
          complete := true;
          UpdateDisplay(1);
        } else {
          var ledCopy := UpdateLeds(counter1, portD, LedPins1);
        }
        latch1 := true;
      }
      if !pressed {
        latch1 := false;
      }
    }

    /** The block for button 2, the same with B0-B3 and the digit 2. */
    method HandleButton2(pressed: bool)
      modifies this
      ensures Model() == HandleButton(old(Model()), Two, pressed)
      ensures displayLog == old(displayLog) + HandleButtonWrites(old(Model()), Two, pressed)
    {
      if pressed && !latch2 {
        counter2 := if counter2 == 255 then 0 else counter2 + 1;
        if counter2 > 15 {
          counter2 := 15;
          portB := portB | LedPins2;
          complete := true;
          UpdateDisplay(2);
        } else {
          var ledCopy := UpdateLeds(counter2, portB, LedPins2);
        }
        latch2 := true;
      }
      if !pressed {
        latch2 := false;
      }
    }

    /** The `while (1)` loop over a finite sequence of readings. */
    method Poll(inputs: seq<Input>)
      modifies this
      ensures Model() == Run(old(Model()), inputs)
      ensures displayLog == old(displayLog) + RunWrites(old(Model()), inputs)
    {
      var i := 0;
      while i < |inputs|
        invariant 0 <= i <= |inputs|
        invariant Run(Model(), inputs[i..]) == Run(old(Model()), inputs)
        invariant displayLog + RunWrites(Model(), inputs[i..]) == old(displayLog) + RunWrites(old(Model()), inputs)
      {
        assert inputs[i..][1..] == inputs[i + 1..];
        ghost var log := displayLog;
        ghost var written := StepWrites(Model(), inputs[i].pressed1, inputs[i].pressed2);
        Tick(inputs[i].pressed1, inputs[i].pressed2);
        assert log + (written + RunWrites(Model(), inputs[i + 1..])) == displayLog + RunWrites(Model(), inputs[i + 1..]);
        i := i + 1;
      }
    }
  }

  /** `main` over a finite run: power-on, the countdown, then one loop
      iteration per reading. */
  method Program(ports: Ports, inputs: seq<Input>) returns (board: Board)
    ensures board.Model() == Run(Started(ports), inputs)
    ensures board.displayLog == [Encode(5), Encode(4), Encode(3), Encode(2), Encode(1), Encode(0)] + RunWrites(Started(ports), inputs)
  {
    board := new Board(ports);
    board.Countdown();
    board.Poll(inputs);
  }
}
