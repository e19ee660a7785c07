/** The state of the firmware in main.c as a value: the three output ports it
    writes, the two 4-bit counters, the two press latches and the two phase
    flags, with one function per piece of its logic. The class in the
    Firmware module performs the same steps in place and is proved to agree
    with these functions. */
module Controller {
  import opened Bits
  import opened SevenSegment

  /** `LED_PINS1`: PD4 to PD7, the LEDs of the first counter. */
  const LedPins1: bv8 := 0xF0
  /** `LED_PINS2`: PB0 to PB3, the LEDs of the second counter. */
  const LedPins2: bv8 := 0x0F
  /** PC0 to PC5 carry segments a to f. */
  const SegmentPinsC: bv8 := 0x3F
  /** PB4 carries segment g: the bit index within PORTB (not a mask). */
  const SegmentBitB: bv8 := 4
  /** An unsigned 8-bit value, as the counters are declared (`uint8_t`). */
  type Byte = x: int | 0 <= x < 256

  /** The largest value a counter keeps. */
  const Max: Byte := 15
  /** The digits the startup countdown shows, in order. */
  const CountdownDigits: seq<Digit> := [5, 4, 3, 2, 1, 0]

  datatype Button = One | Two

  /** The output registers PORTB, PORTC and PORTD. */
  datatype Ports = Ports(portB: bv8, portC: bv8, portD: bv8)

  /** The ports and the globals `contador1`, `contador2`,
      `boton1Presionado`, `boton2Presionado`, `cuentaRegresivaTerminada`
      and `conteoCompletado`. */
  datatype State = State(
    ports: Ports,
    counter1: Byte, counter2: Byte,
    latch1: bool, latch2: bool,
    countdownDone: bool, complete: bool)

  /** The globals as C initialises them, beside the given port values. */
  function PowerOn(ports: Ports): (s: State)
    ensures Valid(s) && !s.countdownDone && s.ports == ports
  {
    State(ports, 0, 0, false, false, false, false)
  }

  /** What holds of every reachable state: both counters within 0..15,
      and nothing counted or latched before the countdown has finished. */
  predicate Valid(s: State)
  {
    s.counter1 <= Max && s.counter2 <= Max &&
    (!s.countdownDone ==> s.counter1 == 0 && s.counter2 == 0 && !s.latch1 && !s.latch2 && !s.complete)
  }

  // ---------------------------------------------------------------------
  // The seven-segment display

  /** The display lines after `pattern` is written to them: the loop copies
      bits 0 to 5 into PORTC bits 0 to 5, then bit 6 goes to PB4. */
  function WritePattern(p: Ports, pattern: bv8): Ports
  {
    p.(portC := CopyLowBits(p.portC, pattern, 6),
       portB := SetBit(p.portB, SegmentBitB, Bit(pattern, 6)))
  }

  /** `actualizarDisplay(n)`: the pattern of digit `n` goes to the display. */
  function ShowDigit(p: Ports, n: nat): Ports
    requires n <= 9
  {
    WritePattern(p, Encode(n))
  }

  /** The pattern on the display's seven lines: PC0 to PC5 as bits 0 to 5
      and PB4 as bit 6. */
  function Displayed(p: Ports): bv8
  {
    (p.portC & SegmentPinsC) | (if Bit(p.portB, SegmentBitB) then 0x40 else 0)
  }

  /** Bit i of the displayed pattern is PORTC bit i below 6, PB4 at 6, and
      never set at 7. */
  lemma DisplayedAt(p: Ports, i: bv8)
    requires i < 8
    ensures Bit(Displayed(p), i) == if i < 6 then Bit(p.portC, i) else if i == 6 then Bit(p.portB, SegmentBitB) else false
  {
  }

  /** One bit of PORTC after a display write: pattern bit i for i < 6, the
      old bit for i = 6 and 7. */
  lemma WritePatternPortC(p: Ports, pattern: bv8, i: bv8)
    requires i < 8
    ensures Bit(WritePattern(p, pattern).portC, i) == if i < 6 then Bit(pattern, i) else Bit(p.portC, i)
  {
    CopyLowBitsAt(p.portC, pattern, 6, i);
  }

  /** One bit of PORTB after a display write: pattern bit 6 at PB4, the old
      bit elsewhere. */
  lemma WritePatternPortB(p: Ports, pattern: bv8, i: bv8)
    requires i < 8
    ensures Bit(WritePattern(p, pattern).portB, i) == if i == SegmentBitB then Bit(pattern, 6) else Bit(p.portB, i)
  {
    SetBitAt(p.portB, SegmentBitB, Bit(pattern, 6), i);
  }

  /** Reading the display back after writing a 7-bit pattern gives the pattern. */
  lemma WritePatternDisplays(p: Ports, pattern: bv8)
    requires !Bit(pattern, 7)
    ensures Displayed(WritePattern(p, pattern)) == pattern
  {
    var r := WritePattern(p, pattern);
    forall i: bv8 | i < 8
      ensures Bit(Displayed(r), i) == Bit(pattern, i)
    {
      DisplayedAt(r, i);
      WritePatternPortC(p, pattern, i);
      WritePatternPortB(p, pattern, i);
    }
    BitsDetermine(Displayed(r), pattern);
  }

  /** A display write sets PORTC bit i to bit i of the digit's pattern for
      i < 6 and PB4 to bit 6, and touches no other port bit. */
  lemma ShowDigitPins(p: Ports, n: nat)
    requires n <= 9
    ensures forall i: bv8 | i < 6 :: Bit(ShowDigit(p, n).portC, i) == Bit(Encode(n), i)
    ensures Bit(ShowDigit(p, n).portB, SegmentBitB) == Bit(Encode(n), 6)
    ensures forall i: bv8 | 6 <= i < 8 :: Bit(ShowDigit(p, n).portC, i) == Bit(p.portC, i)
    ensures forall i: bv8 | i < 8 && i != SegmentBitB :: Bit(ShowDigit(p, n).portB, i) == Bit(p.portB, i)
    ensures ShowDigit(p, n).portD == p.portD
  {
    forall i: bv8 | i < 8
      ensures Bit(ShowDigit(p, n).portC, i) == if i < 6 then Bit(Encode(n), i) else Bit(p.portC, i)
      ensures Bit(ShowDigit(p, n).portB, i) == if i == SegmentBitB then Bit(Encode(n), 6) else Bit(p.portB, i)
    {
      WritePatternPortC(p, Encode(n), i);
      WritePatternPortB(p, Encode(n), i);
    }
  }

  /** After a write of digit n the display shows exactly n's pattern, and
      reading it back gives n. */
  lemma ShowDigitDisplays(p: Ports, n: nat)
    requires n <= 9
    ensures Displayed(ShowDigit(p, n)) == Encode(n)
    ensures Decode(Displayed(ShowDigit(p, n))) == Some(n)
  {
    WritePatternDisplays(p, Encode(n));
    DecodeEncode(n);
  }

  /** A display write replaces whatever the previous one left. */
  lemma WritePatternOverwrites(p: Ports, x: bv8, y: bv8)
    ensures WritePattern(WritePattern(p, x), y) == WritePattern(p, y)
  {
    CopyLowBitsOverwrites(p.portC, x, y, 6);
  }

  /** The display writes of `ds`, in order. */
  function ShowDigits(p: Ports, ds: seq<Digit>): Ports
  {
    if ds == [] then p else ShowDigit(ShowDigits(p, ds[..|ds| - 1]), ds[|ds| - 1])
  }

  /** One more digit shown. */
  lemma ShowDigitsSnoc(p: Ports, ds: seq<Digit>, d: Digit)
    ensures ShowDigits(p, ds + [d]) == ShowDigit(ShowDigits(p, ds), d)
  {
    assert (ds + [d])[..|ds|] == ds;
  }

  /** The countdown shows 5 first and each digit one less than the last. */
  lemma CountdownPrefix(k: nat)
    requires k < |CountdownDigits|
    ensures CountdownDigits[..k + 1] == CountdownDigits[..k] + [5 - k]
  {
  }

  /** The patterns of the whole countdown, in order. */
  lemma CountdownPatterns()
    ensures Patterns(CountdownDigits) == [Encode(5), Encode(4), Encode(3), Encode(2), Encode(1), Encode(0)]
  {
  }

  /** A run of display writes leaves the ports as the last write alone would. */
  lemma {:induction false} ShowDigitsLast(p: Ports, ds: seq<Digit>)
    requires ds != []
    ensures ShowDigits(p, ds) == ShowDigit(p, ds[|ds| - 1])
  {
    var front := ds[..|ds| - 1];
    if front != [] {
      ShowDigitsLast(p, front);
      WritePatternOverwrites(p, Encode(front[|front| - 1]), Encode(ds[|ds| - 1]));
    }
  }

  /** Blanking the display (main.c:103-104): clears PC0-PC5 and PB4 and
      keeps every other pin. */
  function ClearDisplay(p: Ports): Ports
  {
    p.(portC := p.portC & !SegmentPinsC, portB := p.portB & !(1 << SegmentBitB))
  }

  /** The k-th digit the countdown writes is 5 - k, and right after it is
      written the display shows exactly that digit. */
  lemma CountdownShows(p: Ports, k: nat)
    requires k < |CountdownDigits|
    ensures CountdownDigits[k] == 5 - k
    ensures Displayed(ShowDigits(p, CountdownDigits[..k + 1])) == Encode(5 - k)
  {
    ShowDigitsLast(p, CountdownDigits[..k + 1]);
    ShowDigitDisplays(p, 5 - k);
  }

  /** Clearing switches every segment off and keeps every other pin. */
  lemma ClearDisplayPins(p: Ports)
    ensures Displayed(ClearDisplay(p)) == 0
    ensures ClearDisplay(p).portC & !SegmentPinsC == p.portC & !SegmentPinsC
    ensures ClearDisplay(p).portB & !(1 << SegmentBitB) == p.portB & !(1 << SegmentBitB)
    ensures ClearDisplay(p).portD == p.portD
  {
  }

  /** The startup phase of `main`: show 5, 4, 3, 2, 1, 0, mark the countdown
      finished and blank the display. */
  function Countdown(s: State): State
  {
    s.(ports := ClearDisplay(ShowDigits(s.ports, CountdownDigits)), countdownDone := true)
  }

  /** Blanking the display erases whatever was written to it before. */
  lemma ClearAfterWrite(p: Ports, pattern: bv8)
    ensures ClearDisplay(WritePattern(p, pattern)) == ClearDisplay(p)
  {
    ClearAfterWriteC(p, pattern);
    ClearAfterWriteB(p, pattern);
  }

  /** A display write changes no PORTC pin outside PC0-PC5. */
  lemma ClearAfterWriteC(p: Ports, pattern: bv8)
    ensures WritePattern(p, pattern).portC & !SegmentPinsC == p.portC & !SegmentPinsC
  {
    var qc, pc := WritePattern(p, pattern).portC & !SegmentPinsC, p.portC & !SegmentPinsC;
    forall i: bv8 | i < 8
      ensures Bit(qc, i) == Bit(pc, i)
    {
      WritePatternPortC(p, pattern, i);
      ClearAtC(p.portC, i);
      ClearAtC(WritePattern(p, pattern).portC, i);
    }
    BitsDetermine(qc, pc);
  }

  /** A display write changes no PORTB pin other than PB4. */
  lemma ClearAfterWriteB(p: Ports, pattern: bv8)
    ensures WritePattern(p, pattern).portB & !(1 << SegmentBitB) == p.portB & !(1 << SegmentBitB)
  {
    assert WritePattern(p, pattern).portB == SetBit(p.portB, SegmentBitB, Bit(pattern, 6));
  }

  /** One bit of PORTC after PC0 to PC5 are cleared. */
  lemma ClearAtC(c: bv8, i: bv8)
    requires i < 8
    ensures Bit(c & !SegmentPinsC, i) == (6 <= i && Bit(c, i))
  {
  }

  /** After the countdown the display is blank, the counting phase is open,
      and the LEDs, the other port bits, the counters and the latches are as
      before: the digits shown on the way leave no trace. */
  lemma CountdownEnds(s: State)
    ensures Countdown(s).ports == ClearDisplay(s.ports)
    ensures Countdown(s).countdownDone
    ensures Displayed(Countdown(s).ports) == 0
    ensures Countdown(s) == s.(ports := Countdown(s).ports, countdownDone := true)
    ensures Valid(s) ==> Valid(Countdown(s))
  {
    ShowDigitsLast(s.ports, CountdownDigits);
    ClearAfterWrite(s.ports, Encode(0));
    ClearDisplayPins(s.ports);
  }

  // ---------------------------------------------------------------------
  // The two buttons

  function Other(b: Button): Button
  {
    match b
    case One => Two
    case Two => One
  }

  /** `contador1` or `contador2`. */
  function Count(s: State, b: Button): Byte
  {
    match b
    case One => s.counter1
    case Two => s.counter2
  }

  /** `boton1Presionado` or `boton2Presionado`. */
  function Latch(s: State, b: Button): bool
  {
    match b
    case One => s.latch1
    case Two => s.latch2
  }

  function WithCount(s: State, b: Button, c: Byte): State
  {
    match b
    case One => s.(counter1 := c)
    case Two => s.(counter2 := c)
  }

  function WithLatch(s: State, b: Button, l: bool): State
  {
    match b
    case One => s.(latch1 := l)
    case Two => s.(latch2 := l)
  }

  /** The port holding a button's LED group: PORTD for the first, PORTB for
      the second. */
  function LedPort(p: Ports, b: Button): bv8
  {
    match b
    case One => p.portD
    case Two => p.portB
  }

  function LedPins(b: Button): bv8
  {
    match b
    case One => LedPins1
    case Two => LedPins2
  }

  /** Switching on the whole LED group of button `b` (main.c:117 and
      main.c:139): D4-D7 for the first button, B0-B3 for the second. */
  function LightLeds(p: Ports, b: Button): Ports
  {
    match b
    case One => p.(portD := p.portD | LedPins1)
    case Two => p.(portB := p.portB | LedPins2)
  }

  /** The digit shown when a counter saturates. */
  function CompletionDigit(b: Button): nat
  {
    match b
    case One => 1
    case Two => 2
  }

  /** One button's part of a loop iteration, for the reading `pressed`. On a
      rising edge the counter is incremented as a `uint8_t` (255 wraps to 0); past 15 it is
      clamped, its LEDs are lit, counting is marked complete and the
      button's digit is shown. Below that the firmware calls
      `actualizarLEDs`, which changes only its own copy of the port value,
      so nothing else changes. The latch then follows the button. */
  function HandleButton(s: State, b: Button, pressed: bool): State
  {
    var afterEdge :=
      if pressed && !Latch(s, b) then
        var c := if Count(s, b) == 255 then 0 else Count(s, b) + 1;
        var counted :=
          if c > Max then WithCount(s, b, Max).(ports := ShowDigit(LightLeds(s.ports, b), CompletionDigit(b)), complete := true)
          else WithCount(s, b, c);
        WithLatch(counted, b, true)
      else s;
    if !pressed then WithLatch(afterEdge, b, false) else afterEdge
  }

  /** One iteration of `while (1)`: nothing before the countdown has
      finished or after counting is complete; otherwise the first button,
      then the second. */
  function Step(s: State, pressed1: bool, pressed2: bool): State
  {
    if !s.countdownDone || s.complete then s
    else HandleButton(HandleButton(s, One, pressed1), Two, pressed2)
  }

  /** The patterns `actualizarDisplay` puts on the display while button `b`
      is handled: the button's digit when the incremented counter passes 15,
      nothing otherwise. */
  function HandleButtonWrites(s: State, b: Button, pressed: bool): seq<bv8>
  {
    if pressed && !Latch(s, b) && Max <= Count(s, b) < 255 then [Encode(CompletionDigit(b))] else []
  }

  /** The patterns written to the display in one iteration, in order. */
  function StepWrites(s: State, pressed1: bool, pressed2: bool): seq<bv8>
  {
    if !s.countdownDone || s.complete then []
    else HandleButtonWrites(s, One, pressed1) + HandleButtonWrites(HandleButton(s, One, pressed1), Two, pressed2)
  }

  /** After a button's part, its latch holds exactly the reading. */
  lemma LatchFollowsButton(s: State, b: Button, pressed: bool)
    ensures Latch(HandleButton(s, b, pressed), b) == pressed
  {
  }

  /** A button's part never touches the other button's counter or latch. */
  lemma HandleButtonIsolated(s: State, b: Button, pressed: bool)
    ensures Count(HandleButton(s, b, pressed), Other(b)) == Count(s, Other(b))
    ensures Latch(HandleButton(s, b, pressed), Other(b)) == Latch(s, Other(b))
  {
  }

  /** A button's part never changes the countdown flag and never clears the
      completion flag. */
  lemma HandleButtonKeepsFlags(s: State, b: Button, pressed: bool)
    ensures HandleButton(s, b, pressed).countdownDone == s.countdownDone
    ensures s.complete ==> HandleButton(s, b, pressed).complete
  {
  }

  /** Without a rising edge only the latch can change. */
  lemma NoEdgeOnlyLatch(s: State, b: Button, pressed: bool)
    requires !pressed || Latch(s, b)
    ensures HandleButton(s, b, pressed) == WithLatch(s, b, pressed)
  {
  }

  /** A rising edge below saturation adds one to the counter and sets the
      latch; the ports, LEDs included, keep their values. */
  lemma CountedEdge(s: State, b: Button)
    requires !Latch(s, b) && Count(s, b) < Max
    ensures Count(HandleButton(s, b, true), b) == Count(s, b) + 1
    ensures HandleButton(s, b, true) == WithLatch(WithCount(s, b, Count(s, b) + 1), b, true)
    ensures HandleButton(s, b, true).ports == s.ports
    ensures HandleButton(s, b, true).complete == s.complete
  {
  }

  /** Lighting a group and then writing the display leaves the whole group
      lit: PB4, which shares PORTB with the second group, is not one of its
      pins. */
  lemma WriteKeepsLedsLit(p: Ports, b: Button, pattern: bv8)
    ensures LedPort(WritePattern(LightLeds(p, b), pattern), b) & LedPins(b) == LedPins(b)
  {
  }

  /** A display write leaves the LEDs of both groups as they were. */
  lemma WriteKeepsLeds(p: Ports, b: Button, pattern: bv8)
    ensures LedPort(WritePattern(p, pattern), b) & LedPins(b) == LedPort(p, b) & LedPins(b)
  {
  }

  /** Lighting one group leaves the other group's LEDs as they were. */
  lemma LightLedsIsolated(p: Ports, b: Button)
    ensures LedPort(LightLeds(p, b), Other(b)) & LedPins(Other(b)) == LedPort(p, Other(b)) & LedPins(Other(b))
  {
  }

  /** The rising edge that finds the counter at 15 keeps it at 15, sets the
      latch and completes counting; the other counter keeps its value. */
  lemma SaturatingEdge(s: State, b: Button)
    requires !Latch(s, b) && Count(s, b) == Max
    ensures Count(HandleButton(s, b, true), b) == Max
    ensures Latch(HandleButton(s, b, true), b)
    ensures HandleButton(s, b, true).complete
    ensures Count(HandleButton(s, b, true), Other(b)) == Count(s, Other(b))
  {
  }

  /** On that edge the button's whole LED group is lit, the other group's
      LEDs keep their values, and the display shows the button's digit. */
  lemma SaturatingEdgePorts(s: State, b: Button)
    requires !Latch(s, b) && Count(s, b) == Max
    ensures LedPort(HandleButton(s, b, true).ports, b) & LedPins(b) == LedPins(b)
    ensures LedPort(HandleButton(s, b, true).ports, Other(b)) & LedPins(Other(b)) == LedPort(s.ports, Other(b)) & LedPins(Other(b))
    ensures Displayed(HandleButton(s, b, true).ports) == Encode(CompletionDigit(b))
  {
    var ports := ShowDigit(LightLeds(s.ports, b), CompletionDigit(b));
    assert HandleButton(s, b, true).ports == ports;
    WriteKeepsLedsLit(s.ports, b, Encode(CompletionDigit(b)));
    WriteKeepsLeds(LightLeds(s.ports, b), Other(b), Encode(CompletionDigit(b)));
    LightLedsIsolated(s.ports, b);
    ShowDigitDisplays(LightLeds(s.ports, b), CompletionDigit(b));
  }

  /** The pins of PORTB that are neither an LED of the second group nor the
      segment g line: PB5 to PB7. */
  const OtherPinsB: bv8 := !(LedPins2 | (1 << SegmentBitB))

  /** On that edge no other pin changes: PD0 to PD3 (the button inputs and
      their pull-ups among them), PC6, PC7 and PB5 to PB7 keep their values. */
  lemma SaturatingEdgeKeepsPins(s: State, b: Button)
    requires !Latch(s, b) && Count(s, b) == Max
    ensures HandleButton(s, b, true).ports.portD & !LedPins1 == s.ports.portD & !LedPins1
    ensures HandleButton(s, b, true).ports.portC & !SegmentPinsC == s.ports.portC & !SegmentPinsC
    ensures HandleButton(s, b, true).ports.portB & OtherPinsB == s.ports.portB & OtherPinsB
  {
    var lit := LightLeds(s.ports, b);
    assert HandleButton(s, b, true).ports == WritePattern(lit, Encode(CompletionDigit(b)));
    ClearAfterWriteC(lit, Encode(CompletionDigit(b)));
    ClearAfterWriteB(lit, Encode(CompletionDigit(b)));
    var q := WritePattern(lit, Encode(CompletionDigit(b))).portB;
    assert q & OtherPinsB == (q & !(1 << SegmentBitB)) & OtherPinsB;
    assert lit.portB & OtherPinsB == (lit.portB & !(1 << SegmentBitB)) & OtherPinsB;
    assert lit.portB & OtherPinsB == s.ports.portB & OtherPinsB;
  }

  // ---------------------------------------------------------------------
  // What the display is written with

  /** A button's part writes the display exactly when it completes counting,
      and then the display shows the button's digit; without a write, no
      port changes and completion stays as it was. */
  lemma HandleButtonWritesShown(s: State, b: Button, pressed: bool)
    ensures HandleButtonWrites(s, b, pressed) == [] ==>
      HandleButton(s, b, pressed).ports == s.ports && HandleButton(s, b, pressed).complete == s.complete
    ensures HandleButtonWrites(s, b, pressed) != [] ==>
      HandleButton(s, b, pressed).complete && Displayed(HandleButton(s, b, pressed).ports) == Encode(CompletionDigit(b))
  {
    if HandleButtonWrites(s, b, pressed) != [] {
      ShowDigitDisplays(LightLeds(s.ports, b), CompletionDigit(b));
    }
  }

  /** One iteration writes the display at most twice. After a write the
      display shows the last pattern written and counting is complete;
      without one, no port changes and completion stays as it was. */
  lemma StepWritesShown(s: State, pressed1: bool, pressed2: bool)
    ensures |StepWrites(s, pressed1, pressed2)| <= 2
    ensures StepWrites(s, pressed1, pressed2) == [] ==>
      Step(s, pressed1, pressed2).ports == s.ports && Step(s, pressed1, pressed2).complete == s.complete
    ensures StepWrites(s, pressed1, pressed2) != [] ==>
      Step(s, pressed1, pressed2).complete &&
      Displayed(Step(s, pressed1, pressed2).ports) == StepWrites(s, pressed1, pressed2)[|StepWrites(s, pressed1, pressed2)| - 1]
  {
    if s.countdownDone && !s.complete {
      var s1 := HandleButton(s, One, pressed1);
      HandleButtonWritesShown(s, One, pressed1);
      HandleButtonWritesShown(s1, Two, pressed2);
      HandleButtonKeepsFlags(s1, Two, pressed2);
    }
  }

  // Both buttons in one iteration

  /** Button 1 is handled first, and button 2 is still handled in the
      iteration in which button 1 completes counting: its edge is counted and
      the display keeps button 1's digit. */
  lemma SecondCountsAfterFirstSaturates(s: State)
    requires Valid(s) && s.countdownDone && !s.complete
    requires s.counter1 == Max && !s.latch1 && !s.latch2 && s.counter2 < Max
    ensures Step(s, true, true).complete
    ensures Step(s, true, true).counter1 == Max
    ensures Step(s, true, true).counter2 == s.counter2 + 1
    ensures Displayed(Step(s, true, true).ports) == Encode(1)
  {
    var s1 := HandleButton(s, One, true);
    SaturatingEdge(s, One);
    SaturatingEdgePorts(s, One);
    HandleButtonIsolated(s, One, true);
    CountedEdge(s1, Two);
  }

  /** When both counters pass 15 in the same iteration, both LED groups end
      lit and the display ends on button 2's digit, written last. */
  lemma BothSaturate(s: State)
    requires Valid(s) && s.countdownDone && !s.complete
    requires s.counter1 == Max && s.counter2 == Max && !s.latch1 && !s.latch2
    ensures Step(s, true, true).complete
    ensures Step(s, true, true).ports.portD & LedPins1 == LedPins1
    ensures Step(s, true, true).ports.portB & LedPins2 == LedPins2
    ensures Displayed(Step(s, true, true).ports) == Encode(2)
  {
    var s1 := HandleButton(s, One, true);
    SaturatingEdgePorts(s, One);
    HandleButtonIsolated(s, One, true);
    SaturatingEdge(s1, Two);
    SaturatingEdgePorts(s1, Two);
  }
}
