/** Finite runs of the `while (1)` loop of main.c: one pair of button
    readings per iteration, and what a whole run does to the counters, the
    latches, the ports and the completion flag. */
module Traces {
  import opened Bits
  import opened SevenSegment
  import opened Controller

  /** The two readings of one iteration, already decoded from the active-low
      pins: a reading holds when the button's input pin (PD2 or PD3) is low. */
  datatype Input = Input(pressed1: bool, pressed2: bool)

  function Pressed(i: Input, b: Button): bool
  {
    match b
    case One => i.pressed1
    case Two => i.pressed2
  }

  /** The loop iterations of `t`, in order. */
  function Run(s: State, t: seq<Input>): State
    decreases |t|
  {
    if t == [] then s else Run(Step(s, t[0].pressed1, t[0].pressed2), t[1..])
  }

  /** The readings of one button along a run. */
  function Column(t: seq<Input>, b: Button): (ps: seq<bool>)
    ensures |ps| == |t|
  {
    if t == [] then [] else [Pressed(t[0], b)] + Column(t[1..], b)
  }

  /** The number of rising edges in `ps` when the reading before it was
      `before`: each maximal run of presses counts once, except one that
      continues a press already under way. */
  function Edges(before: bool, ps: seq<bool>): (n: nat)
    ensures n <= |ps|
    decreases |ps|
  {
    if ps == [] then 0
    else (if ps[0] && !before then 1 else 0) + Edges(ps[0], ps[1..])
  }

  /** Holding a button down for any number of iterations is one edge, and
      none at all when it was already down. */
  lemma {:induction false} HeldCountsOnce(before: bool, k: nat)
    requires k > 0
    ensures Edges(before, seq(k, _ => true)) == if before then 0 else 1
    decreases k
  {
    var held := seq(k, _ => true);
    if k > 1 {
      assert held[1..] == seq(k - 1, _ => true);
      HeldCountsOnce(true, k - 1);
    }
  }

  /** Two successive presses are two edges only with a release between
      them: a run of `n` iterations holds at most half of them, rounded up,
      as edges. */
  lemma {:induction false} EdgesNeedReleases(before: bool, ps: seq<bool>)
    ensures Edges(before, ps) <= (|ps| + (if before then 0 else 1)) / 2
    decreases |ps|
  {
    if ps != [] {
      EdgesNeedReleases(ps[0], ps[1..]);
    }
  }

  lemma {:induction false} RunAppend(s: State, t: seq<Input>, u: seq<Input>)
    ensures Run(s, t + u) == Run(Run(s, t), u)
    decreases |t|
  {
    if t == [] {
      assert t + u == u;
    } else {
      assert (t + u)[0] == t[0];
      assert (t + u)[1..] == t[1..] + u;
      RunAppend(Step(s, t[0].pressed1, t[0].pressed2), t[1..], u);
    }
  }

  /** Before the countdown has finished, and once counting is complete, no
      iteration changes anything. */
  lemma {:induction false} RunFrozen(s: State, t: seq<Input>)
    requires !s.countdownDone || s.complete
    ensures Run(s, t) == s
    decreases |t|
  {
    if t != [] {
      RunFrozen(s, t[1..]);
    }
  }

  /** The patterns a run writes to the display, in order. */
  function RunWrites(s: State, t: seq<Input>): seq<bv8>
    decreases |t|
  {
    if t == [] then [] else StepWrites(s, t[0].pressed1, t[0].pressed2) + RunWrites(Step(s, t[0].pressed1, t[0].pressed2), t[1..])
  }

  /** Before the countdown has finished, and once counting is complete, a
      run writes nothing to the display. */
  lemma {:induction false} RunWritesFrozen(s: State, t: seq<Input>)
    requires !s.countdownDone || s.complete
    ensures RunWrites(s, t) == []
    decreases |t|
  {
    if t != [] {
      RunWritesFrozen(s, t[1..]);
    }
  }

  /** A whole run writes the display at most twice, all in the iteration
      that completes counting. After a write the display shows the last
      pattern written and counting is complete; without one, no port
      changes and completion stays as it was. */
  lemma {:induction false} RunWritesShown(s: State, t: seq<Input>)
    ensures |RunWrites(s, t)| <= 2
    ensures RunWrites(s, t) == [] ==> Run(s, t).ports == s.ports && Run(s, t).complete == s.complete
    ensures RunWrites(s, t) != [] ==>
      Run(s, t).complete && Displayed(Run(s, t).ports) == RunWrites(s, t)[|RunWrites(s, t)| - 1]
    decreases |t|
  {
    if t != [] {
      var s1 := Step(s, t[0].pressed1, t[0].pressed2);
      StepWritesShown(s, t[0].pressed1, t[0].pressed2);
      if StepWrites(s, t[0].pressed1, t[0].pressed2) == [] {
        RunWritesShown(s1, t[1..]);
      } else {
        RunFrozen(s1, t[1..]);
        RunWritesFrozen(s1, t[1..]);
      }
    }
  }

  /** From a state that has not completed, a run writes the display exactly
      when it completes counting. */
  lemma RunWritesOnCompletion(s: State, t: seq<Input>)
    requires !s.complete
    ensures RunWrites(s, t) != [] <==> Run(s, t).complete
  {
    RunWritesShown(s, t);
  }

  /** One iteration keeps the state valid: in particular both counters stay
      within 0..15. */
  lemma StepPreservesValid(s: State, pressed1: bool, pressed2: bool)
    requires Valid(s)
    ensures Valid(Step(s, pressed1, pressed2))
  {
    if s.countdownDone && !s.complete {
      var s1 := HandleButton(s, One, pressed1);
      HandleButtonIsolated(s, One, pressed1);
      HandleButtonKeepsFlags(s, One, pressed1);
      HandleButtonIsolated(s1, Two, pressed2);
      HandleButtonKeepsFlags(s1, Two, pressed2);
    }
  }

  lemma {:induction false} RunPreservesValid(s: State, t: seq<Input>)
    requires Valid(s)
    ensures Valid(Run(s, t))
    decreases |t|
  {
    if t != [] {
      StepPreservesValid(s, t[0].pressed1, t[0].pressed2);
      RunPreservesValid(Step(s, t[0].pressed1, t[0].pressed2), t[1..]);
    }
  }

  /** 1 on a rising edge of button `b` for reading `pressed`, 0 otherwise. */
  function EdgeCount(s: State, b: Button, pressed: bool): nat
  {
    if pressed && !Latch(s, b) then 1 else 0
  }

  /** One button's part in the counting phase: it counts iff there is an
      edge, it completes counting iff that edge finds the counter at 15, and
      when it does not complete it changes no port. */
  lemma HandleButtonCounts(s: State, b: Button, pressed: bool)
    requires Count(s, b) <= Max && !s.complete
    ensures HandleButton(s, b, pressed).complete <==> Count(s, b) + EdgeCount(s, b, pressed) > Max
    ensures !HandleButton(s, b, pressed).complete ==>
      Count(HandleButton(s, b, pressed), b) == Count(s, b) + EdgeCount(s, b, pressed) &&
      HandleButton(s, b, pressed).ports == s.ports
  {
    if pressed && !Latch(s, b) {
      if Count(s, b) < Max {
        CountedEdge(s, b);
      } else {
        SaturatingEdge(s, b);
      }
    } else {
      NoEdgeOnlyLatch(s, b, pressed);
    }
  }

  /** One iteration of the counting phase, in terms of the two edges. */
  lemma StepCounts(s: State, pressed1: bool, pressed2: bool)
    requires Valid(s) && s.countdownDone && !s.complete
    ensures Step(s, pressed1, pressed2).complete <==>
      s.counter1 + EdgeCount(s, One, pressed1) > 15 || s.counter2 + EdgeCount(s, Two, pressed2) > 15
    ensures !Step(s, pressed1, pressed2).complete ==>
      Step(s, pressed1, pressed2).counter1 == s.counter1 + EdgeCount(s, One, pressed1) &&
      Step(s, pressed1, pressed2).counter2 == s.counter2 + EdgeCount(s, Two, pressed2) &&
      Step(s, pressed1, pressed2).ports == s.ports
    ensures Step(s, pressed1, pressed2).latch1 == pressed1 && Step(s, pressed1, pressed2).latch2 == pressed2
  {
    var s1 := HandleButton(s, One, pressed1);
    HandleButtonCounts(s, One, pressed1);
    HandleButtonIsolated(s, One, pressed1);
    HandleButtonKeepsFlags(s, One, pressed1);
    LatchFollowsButton(s, One, pressed1);
    HandleButtonIsolated(s1, Two, pressed2);
    HandleButtonKeepsFlags(s1, Two, pressed2);
    LatchFollowsButton(s1, Two, pressed2);
    assert EdgeCount(s1, Two, pressed2) == EdgeCount(s, Two, pressed2);
    if !s1.complete {
      HandleButtonCounts(s1, Two, pressed2);
    }
  }

  /** The first reading of a run and the edges of the rest. */
  lemma EdgesUnfold(before: bool, t: seq<Input>, b: Button)
    requires t != []
    ensures Edges(before, Column(t, b)) ==
      (if Pressed(t[0], b) && !before then 1 else 0) + Edges(Pressed(t[0], b), Column(t[1..], b))
  {
    assert Column(t, b)[0] == Pressed(t[0], b);
    assert Column(t, b)[1..] == Column(t[1..], b);
  }

  /** Over any run that starts in the counting phase, counting completes iff
      one of the counters would be pushed past 15 by the rising edges of its
      button. */
  lemma {:induction false} RunCompletes(s: State, t: seq<Input>)
    requires Valid(s) && s.countdownDone && !s.complete
    ensures Run(s, t).complete <==>
      s.counter1 + Edges(s.latch1, Column(t, One)) > 15 ||
      s.counter2 + Edges(s.latch2, Column(t, Two)) > 15
    decreases |t|
  {
    if t != [] {
      var i := t[0];
      var s1 := Step(s, i.pressed1, i.pressed2);
      StepCounts(s, i.pressed1, i.pressed2);
      EdgesUnfold(s.latch1, t, One);
      EdgesUnfold(s.latch2, t, Two);
      if s1.complete {
        RunFrozen(s1, t[1..]);
      } else {
        StepPreservesValid(s, i.pressed1, i.pressed2);
        RunCompletes(s1, t[1..]);
      }
    }
  }

  /** Until counting completes, each counter has grown by exactly the number
      of its button's rising edges. */
  lemma {:induction false} RunCounts(s: State, t: seq<Input>)
    requires Valid(s) && s.countdownDone && !s.complete
    requires !Run(s, t).complete
    ensures Run(s, t).counter1 == s.counter1 + Edges(s.latch1, Column(t, One))
    ensures Run(s, t).counter2 == s.counter2 + Edges(s.latch2, Column(t, Two))
    decreases |t|
  {
    if t != [] {
      var i := t[0];
      var s1 := Step(s, i.pressed1, i.pressed2);
      StepCounts(s, i.pressed1, i.pressed2);
      EdgesUnfold(s.latch1, t, One);
      EdgesUnfold(s.latch2, t, Two);
      if s1.complete {
        RunFrozen(s1, t[1..]);
      } else {
        StepPreservesValid(s, i.pressed1, i.pressed2);
        RunCounts(s1, t[1..]);
      }
    }
  }

  /** Until counting completes no port changes, the LEDs included. */
  lemma {:induction false} RunKeepsPorts(s: State, t: seq<Input>)
    requires Valid(s) && s.countdownDone && !s.complete
    requires !Run(s, t).complete
    ensures Run(s, t).ports == s.ports
    decreases |t|
  {
    if t != [] {
      var i := t[0];
      var s1 := Step(s, i.pressed1, i.pressed2);
      StepCounts(s, i.pressed1, i.pressed2);
      if s1.complete {
        RunFrozen(s1, t[1..]);
      } else {
        StepPreservesValid(s, i.pressed1, i.pressed2);
        RunKeepsPorts(s1, t[1..]);
      }
    }
  }

  /** Until counting completes, each latch holds its button's last reading. */
  lemma {:induction false} RunLatches(s: State, t: seq<Input>)
    requires Valid(s) && s.countdownDone && !s.complete
    requires !Run(s, t).complete
    ensures Run(s, t).latch1 == (if t == [] then s.latch1 else t[|t| - 1].pressed1)
    ensures Run(s, t).latch2 == (if t == [] then s.latch2 else t[|t| - 1].pressed2)
    decreases |t|
  {
    if t != [] {
      var i := t[0];
      var s1 := Step(s, i.pressed1, i.pressed2);
      StepCounts(s, i.pressed1, i.pressed2);
      if s1.complete {
        RunFrozen(s1, t[1..]);
      } else {
        StepPreservesValid(s, i.pressed1, i.pressed2);
        RunLatches(s1, t[1..]);
        if t[1..] != [] {
          assert t[1..][|t[1..]| - 1] == t[|t| - 1];
        }
      }
    }
  }

  /** `n` press-and-release cycles of button `b`, the other left alone. */
  function Cycles(b: Button, n: nat): (t: seq<Input>)
    ensures |t| == 2 * n
  {
    if n == 0 then [] else Cycles(b, n - 1) + [PressOnly(b), Input(false, false)]
  }

  /** The reading with button `b` down and the other up. */
  function PressOnly(b: Button): (i: Input)
    ensures Pressed(i, b) && !Pressed(i, Other(b))
  {
    match b
    case One => Input(true, false)
    case Two => Input(false, true)
  }

  lemma {:induction false} ColumnAppend(t: seq<Input>, u: seq<Input>, b: Button)
    ensures Column(t + u, b) == Column(t, b) + Column(u, b)
    decreases |t|
  {
    if t == [] {
      assert t + u == u;
    } else {
      assert (t + u)[0] == t[0];
      assert (t + u)[1..] == t[1..] + u;
      ColumnAppend(t[1..], u, b);
    }
  }

  lemma ColumnPair(x: Input, y: Input, b: Button)
    ensures Column([x, y], b) == [Pressed(x, b), Pressed(y, b)]
  {
    assert [x, y][1..] == [y];
    assert [y][1..] == [];
  }

  /** Edges of a concatenation: those of the first part, then those of the
      second counted from the first part's last reading. */
  lemma {:induction false} EdgesAppend(before: bool, ps: seq<bool>, qs: seq<bool>)
    ensures Edges(before, ps + qs) == Edges(before, ps) + Edges(if ps == [] then before else ps[|ps| - 1], qs)
    decreases |ps|
  {
    if ps != [] {
      assert (ps + qs)[0] == ps[0];
      assert (ps + qs)[1..] == ps[1..] + qs;
      EdgesAppend(ps[0], ps[1..], qs);
    } else {
      assert ps + qs == qs;
    }
  }

  /** One more cycle adds a press and a release of `b` and two idle
      readings of the other button. */
  lemma CyclesColumns(b: Button, n: nat)
    requires n > 0
    ensures Column(Cycles(b, n), b) == Column(Cycles(b, n - 1), b) + [true, false]
    ensures Column(Cycles(b, n), Other(b)) == Column(Cycles(b, n - 1), Other(b)) + [false, false]
  {
    var last := [PressOnly(b), Input(false, false)];
    ColumnAppend(Cycles(b, n - 1), last, b);
    ColumnAppend(Cycles(b, n - 1), last, Other(b));
    ColumnPair(PressOnly(b), Input(false, false), b);
    ColumnPair(PressOnly(b), Input(false, false), Other(b));
  }

  /** The cycled button's readings: one edge per cycle, ending released. */
  lemma {:induction false} CyclesEdges(b: Button, n: nat)
    ensures Edges(false, Column(Cycles(b, n), b)) == n
    ensures n > 0 ==> !Column(Cycles(b, n), b)[2 * n - 1]
    decreases n
  {
    if n > 0 {
      var front := Column(Cycles(b, n - 1), b);
      CyclesEdges(b, n - 1);
      CyclesColumns(b, n);
      EdgesAppend(false, front, [true, false]);
      assert [true, false][1..] == [false];
    }
  }

  /** The other button's readings: never pressed. */
  lemma {:induction false} CyclesOtherIdle(b: Button, n: nat)
    ensures Edges(false, Column(Cycles(b, n), Other(b))) == 0
    ensures n > 0 ==> !Column(Cycles(b, n), Other(b))[2 * n - 1]
    decreases n
  {
    if n > 0 {
      var front := Column(Cycles(b, n - 1), Other(b));
      CyclesOtherIdle(b, n - 1);
      CyclesColumns(b, n);
      EdgesAppend(false, front, [false, false]);
      assert [false, false][1..] == [false];
    }
  }

  /** The state right after the startup countdown, from power-on. */
  function Started(ports: Ports): (s: State)
    ensures Valid(s) && s.countdownDone && !s.complete
    ensures s.counter1 == 0 && s.counter2 == 0 && !s.latch1 && !s.latch2
    ensures s.ports == ClearDisplay(ports)
  {
    CountdownEnds(PowerOn(ports));
    Countdown(PowerOn(ports))
  }

  /** After the countdown, up to 15 press-and-release cycles of one button
      leave its counter equal to the number of cycles, the other counter at
      0, both latches released, counting not complete, and every port, LEDs
      included, as the countdown left it. */
  lemma BelowSaturation(ports: Ports, b: Button, n: nat)
    requires n <= 15
    ensures !Run(Started(ports), Cycles(b, n)).complete
    ensures Count(Run(Started(ports), Cycles(b, n)), b) == n
    ensures Count(Run(Started(ports), Cycles(b, n)), Other(b)) == 0
    ensures !Latch(Run(Started(ports), Cycles(b, n)), b) && !Latch(Run(Started(ports), Cycles(b, n)), Other(b))
    ensures Run(Started(ports), Cycles(b, n)).ports == Started(ports).ports
  {
    var s := Started(ports);
    var t := Cycles(b, n);
    CyclesEdges(b, n);
    CyclesOtherIdle(b, n);
    RunCompletes(s, t);
    RunCounts(s, t);
    RunKeepsPorts(s, t);
    RunLatches(s, t);
    if n > 0 {
      assert t[2 * n - 1] == Input(false, false);
    }
  }

  /** In the counting phase, from a state with the counter of `b` at 15 and
      `b` released, one press of `b` (the other button up) and its release
      saturate that counter, whatever the other button's counter and latch. */
  lemma PressAtFifteen(s: State, b: Button)
    requires s.countdownDone && !s.complete
    requires Count(s, b) == Max && !Latch(s, b)
    ensures Run(s, [PressOnly(b), Input(false, false)]).complete
    ensures Count(Run(s, [PressOnly(b), Input(false, false)]), b) == Max
    ensures Count(Run(s, [PressOnly(b), Input(false, false)]), Other(b)) == Count(s, Other(b))
    ensures LedPort(Run(s, [PressOnly(b), Input(false, false)]).ports, b) & LedPins(b) == LedPins(b)
    ensures LedPort(Run(s, [PressOnly(b), Input(false, false)]).ports, Other(b)) & LedPins(Other(b))
         == LedPort(s.ports, Other(b)) & LedPins(Other(b))
    ensures Displayed(Run(s, [PressOnly(b), Input(false, false)]).ports) == Encode(CompletionDigit(b))
  {
    var p := PressOnly(b);
    var s1 := Step(s, p.pressed1, p.pressed2);
    assert [p, Input(false, false)][1..] == [Input(false, false)];
    match b
    case One =>
      SaturatingEdge(s, One);
      SaturatingEdgePorts(s, One);
      NoEdgeOnlyLatch(HandleButton(s, One, true), Two, false);
      RunFrozen(s1, [Input(false, false)]);
    case Two =>
      NoEdgeOnlyLatch(s, One, false);
      SaturatingEdge(WithLatch(s, One, false), Two);
      SaturatingEdgePorts(WithLatch(s, One, false), Two);
      RunFrozen(s1, [Input(false, false)]);
  }

  /** After the countdown, the 16th press of one button leaves its counter at
      15, its LED group lit and its digit on the display, completes counting,
      and leaves the other counter at 0 and the other group's LEDs as the
      countdown left them. */
  lemma SixteenthPressSaturates(ports: Ports, b: Button)
    ensures Run(Started(ports), Cycles(b, 16)).complete
    ensures Count(Run(Started(ports), Cycles(b, 16)), b) == Max
    ensures Count(Run(Started(ports), Cycles(b, 16)), Other(b)) == 0
    ensures LedPort(Run(Started(ports), Cycles(b, 16)).ports, b) & LedPins(b) == LedPins(b)
    ensures LedPort(Run(Started(ports), Cycles(b, 16)).ports, Other(b)) & LedPins(Other(b))
         == LedPort(ClearDisplay(ports), Other(b)) & LedPins(Other(b))
    ensures Displayed(Run(Started(ports), Cycles(b, 16)).ports) == Encode(CompletionDigit(b))
  {
    var s0 := Started(ports);
    BelowSaturation(ports, b, 15);
    var s15 := Run(s0, Cycles(b, 15));
    RunPreservesValid(s0, Cycles(b, 15));
    RunAppend(s0, Cycles(b, 15), [PressOnly(b), Input(false, false)]);
    PressAtFifteen(s15, b);
  }
}
