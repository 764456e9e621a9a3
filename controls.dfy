/** The controller bookkeeping of Minimal/main.cpp: `ExampleApp::update`,
    which turns the Touch controller's buttons and triggers into the mode
    counters `buttonA`, `buttonB`, `buttonX`, the tracking lag `frameLag`
    with its `boost::circular_buffer` of camera matrices `ringBuf`, and the
    rendering delay `renderLag`; and `ExampleApp::renderScene`, which reads
    the newest matrix of that buffer.  Matrices are the type parameter `M`. */
module Controls {

  /** The capacity the global `ringBuf` is constructed with. */
  const RingCapacity := 30
  /** The clamps `update` applies to `frameLag` and `renderLag`. */
  const MaxFrameLag := 30
  const MaxRenderLag := 10
  /** The moduli of the three mode counters. */
  const ACycle := 5
  const BCycle := 4
  const XCycle := 4

  function Min(a: int, b: int): int { if a <= b then a else b }
  function Max(a: int, b: int): int { if a >= b then a else b }

  /** C++'s `%` on `int`, which truncates toward zero: the remainder takes
      the sign of the dividend. */
  function CRem(a: int, n: int): int
    requires n > 0
  {
    if a >= 0 then a % n else -((-a) % n)
  }

  /** What one controller poll reports, each button or trigger reduced to
      whether it is held: a button bit of `inputState.Buttons` that is set,
      or an index or hand trigger whose value exceeds 0.5. */
  datatype Input = Input(a: bool, b: bool, x: bool,
                         rightIndex: bool, leftIndex: bool,
                         rightHand: bool, leftHand: bool)

  /** `ovr_GetInputState` either fails, and `update` does nothing, or
      delivers an input state. */
  datatype Poll = Failed | Polled(input: Input)

  /** The state `update` and `renderScene` read and write: the counters and
      `*Pressed` flags of the `Scene`, and the globals `frameLag`,
      `renderLag`, `ringBuf` and `camMt`.  `ringBuf` is listed oldest first. */
  datatype AppState<M> = AppState(
    buttonA: int, buttonB: int, buttonX: int,
    buttonAPressed: bool, buttonBPressed: bool, buttonXPressed: bool,
    rtPressed: bool, ltPressed: bool, rhPressed: bool, lhPressed: bool,
    frameLag: int, renderLag: int, ringBuf: seq<M>, camMt: M)

  /** The freshly constructed state: every counter 0, every flag clear, the
      buffer empty. */
  function Initial<M>(cam: M): AppState<M>
  {
    AppState(0, 0, 0, false, false, false, false, false, false, false, 0, 0, [], cam)
  }

  /** The ranges the counters are meant to stay in. */
  predicate InRange<M>(s: AppState<M>)
  {
    && 0 <= s.buttonA < ACycle && 0 <= s.buttonB < BCycle && 0 <= s.buttonX < XCycle
    && 0 <= s.frameLag <= MaxFrameLag && 0 <= s.renderLag <= MaxRenderLag
    && |s.ringBuf| <= RingCapacity
  }

  /** `frameLag` counts the matrices held in `ringBuf`. */
  predicate LockStep<M>(s: AppState<M>)
  {
    |s.ringBuf| == s.frameLag
  }

  /** `circular_buffer::push_back`: appends at the back; on a full buffer
      the front element is overwritten, so the oldest is dropped. */
  function PushBack<M>(buf: seq<M>, m: M): (r: seq<M>)
    requires |buf| <= RingCapacity
    ensures |r| == Min(RingCapacity, |buf| + 1)
    ensures r[|r| - 1] == m
    ensures r[..|r| - 1] == buf[|buf| + 1 - |r|..]
  {
    if |buf| < RingCapacity then buf + [m] else buf[1..] + [m]
  }

  /** The tracking-lag part of one update: a release of the right index
      trigger, then one of the left, as `update` performs them. */
  datatype LagOutcome<M> = LagOutcome(frameLag: int, ringBuf: seq<M>, underrun: bool)

  /** As written: an RT release adds one to `frameLag` (at most 30) and
      pushes `cam`; an LT release takes one from `frameLag` (at least 0) and
      calls `pop_back` whatever the buffer holds.  `pop_back` requires a
      non-empty buffer; a call on an empty one is reported as `underrun`
      and, in this model, leaves the buffer empty. */
  function LagStep<M>(rtReleased: bool, ltReleased: bool, frameLag: int, buf: seq<M>, cam: M): LagOutcome<M>
    requires |buf| <= RingCapacity
  {
    var f1 := if rtReleased then Min(MaxFrameLag, frameLag + 1) else frameLag;
    var b1 := if rtReleased then PushBack(buf, cam) else buf;
    var f2 := if ltReleased then Max(0, f1 - 1) else f1;
    if ltReleased && b1 == [] then LagOutcome(f2, b1, true)
    else if ltReleased then LagOutcome(f2, b1[..|b1| - 1], false)
    else LagOutcome(f2, b1, false)
  }

  /** Corrected: the LT release pops only when there is a matrix to pop, so
      the counter and the buffer stay in step and no pop is ever made on an
      empty buffer. */
  function GuardedLagStep<M>(rtReleased: bool, ltReleased: bool, frameLag: int, buf: seq<M>, cam: M): (r: LagOutcome<M>)
    requires |buf| <= RingCapacity
    ensures !r.underrun
  {
    var f1 := if rtReleased then Min(MaxFrameLag, frameLag + 1) else frameLag;
    var b1 := if rtReleased then PushBack(buf, cam) else buf;
    if ltReleased && b1 != [] then LagOutcome(f1 - 1, b1[..|b1| - 1], false)
    else LagOutcome(f1, b1, false)
  }

  /** The state after one `update`, with whether it popped an empty buffer. */
  datatype Stepped<M> = Stepped(state: AppState<M>, underrun: bool)

  /** A control is released on a poll that finds it not held while its
      `*Pressed` flag is still set. */
  predicate Released(held: bool, pressed: bool) { !held && pressed }

  /** The counters stage of `update`: each counter advances, modulo its
      cycle, on the release of its button, and each button's `*Pressed` flag
      ends equal to whether it is held. */
  function ButtonStage<M>(s: AppState<M>, i: Input): AppState<M>
  {
    s.(buttonA := if Released(i.a, s.buttonAPressed) then CRem(s.buttonA + 1, ACycle) else s.buttonA,
       buttonB := if Released(i.b, s.buttonBPressed) then CRem(s.buttonB + 1, BCycle) else s.buttonB,
       buttonX := if Released(i.x, s.buttonXPressed) then CRem(s.buttonX + 1, XCycle) else s.buttonX,
       buttonAPressed := i.a, buttonBPressed := i.b, buttonXPressed := i.x)
  }

  /** The index-trigger stage: `LagStep` on the two releases, with the
      trigger flags following the triggers. */
  function IndexStage<M>(s: AppState<M>, i: Input): Stepped<M>
    requires |s.ringBuf| <= RingCapacity
  {
    var lag := LagStep(Released(i.rightIndex, s.rtPressed), Released(i.leftIndex, s.ltPressed),
                       s.frameLag, s.ringBuf, s.camMt);
    Stepped(s.(frameLag := lag.frameLag, ringBuf := lag.ringBuf,
               rtPressed := i.rightIndex, ltPressed := i.leftIndex),
            lag.underrun)
  }

  /** The hand-trigger stage: an RH release moves `renderLag` up by one to
      at most ten, then an LH release down by one to at least zero. */
  function HandStage<M>(s: AppState<M>, i: Input): AppState<M>
  {
    var r1 := if Released(i.rightHand, s.rhPressed) then Min(MaxRenderLag, s.renderLag + 1) else s.renderLag;
    var r2 := if Released(i.leftHand, s.lhPressed) then Max(0, r1 - 1) else r1;
    s.(renderLag := r2, rhPressed := i.rightHand, lhPressed := i.leftHand)
  }

  /** The specification of `update`: nothing on a failed poll, otherwise
      the three stages in the order the function performs them. */
  function Step<M>(s: AppState<M>, poll: Poll): Stepped<M>
    requires |s.ringBuf| <= RingCapacity
  {
    match poll
    case Failed => Stepped(s, false)
    case Polled(i) =>
      var t := IndexStage(ButtonStage(s, i), i);
      Stepped(HandStage(t.state, i), t.underrun)
  }

  /** A sequence of updates from `s`. */
  function Run<M>(s: AppState<M>, polls: seq<Poll>): AppState<M>
    requires InRange(s)
    decreases |polls|
  {
    if polls == [] then s
    else
      StepKeepsRanges(s, polls[0]);
      Run(Step(s, polls[0]).state, polls[1..])
  }

  /** What `ringBuf.back()` yields: the newest matrix, or a violated
      precondition on an empty buffer. */
  datatype Back<M> = EmptyBuffer | Back(matrix: M)

  function BackOf<M>(buf: seq<M>): (r: Back<M>)
    ensures r.EmptyBuffer? <==> buf == []
    ensures r.Back? ==> r.matrix == buf[|buf| - 1]
  {
    if buf == [] then EmptyBuffer else Back(buf[|buf| - 1])
  }

  // ----- properties of update -----

  /** `update` keeps every counter in its range. */
  lemma StepKeepsRanges<M>(s: AppState<M>, poll: Poll)
    requires InRange(s)
    ensures InRange(Step(s, poll).state)
  {
  }

  /** The A counter changes exactly on the poll that releases A, and then
      it moves to the next of its five values. */
  lemma ACounterAdvancesOnRelease<M>(s: AppState<M>, i: Input)
    requires InRange(s)
    ensures var t := Step(s, Polled(i)).state;
      (t.buttonA != s.buttonA <==> !i.a && s.buttonAPressed)
      && (t.buttonA != s.buttonA ==> t.buttonA == (s.buttonA + 1) % ACycle)
  {
  }

  /** Likewise for B, over four values. */
  lemma BCounterAdvancesOnRelease<M>(s: AppState<M>, i: Input)
    requires InRange(s)
    ensures var t := Step(s, Polled(i)).state;
      (t.buttonB != s.buttonB <==> !i.b && s.buttonBPressed)
      && (t.buttonB != s.buttonB ==> t.buttonB == (s.buttonB + 1) % BCycle)
  {
  }

  /** Likewise for X, over four values. */
  lemma XCounterAdvancesOnRelease<M>(s: AppState<M>, i: Input)
    requires InRange(s)
    ensures var t := Step(s, Polled(i)).state;
      (t.buttonX != s.buttonX <==> !i.x && s.buttonXPressed)
      && (t.buttonX != s.buttonX ==> t.buttonX == (s.buttonX + 1) % XCycle)
  {
  }

  /** Holding A for any number of polls never advances the counter; the one
      poll releasing it afterwards advances it once. */
  lemma HoldThenRelease<M>(s: AppState<M>, held: Input, rest: Input, n: nat)
    requires InRange(s) && held.a && !rest.a
    ensures Run(s, seq(n, _ => Polled(held))).buttonA == s.buttonA
    ensures n > 0 ==> Run(s, seq(n, _ => Polled(held)) + [Polled(rest)]).buttonA == (s.buttonA + 1) % ACycle
  {
    HeldKeepsA(s, held, n);
    if n > 0 {
      var h := seq(n, _ => Polled(held));
      RunAppend(s, h, [Polled(rest)]);
      HeldSetsFlag(s, held, n);
      var t := Run(s, h);
      StepKeepsRanges(t, Polled(rest));
      assert Run(t, [Polled(rest)]) == Step(t, Polled(rest)).state by {
        assert [Polled(rest)][1..] == [];
      }
    }
  }

  lemma {:induction false} HeldKeepsA<M>(s: AppState<M>, held: Input, n: nat)
    requires InRange(s) && held.a
    ensures Run(s, seq(n, _ => Polled(held))).buttonA == s.buttonA
    ensures InRange(Run(s, seq(n, _ => Polled(held))))
    decreases n
  {
    var h := seq(n, _ => Polled(held));
    if n > 0 {
      StepKeepsRanges(s, Polled(held));
      var t := Step(s, Polled(held)).state;
      assert h[1..] == seq(n - 1, _ => Polled(held));
      HeldKeepsA(t, held, n - 1);
    }
  }

  lemma HeldSetsFlag<M>(s: AppState<M>, held: Input, n: nat)
    requires InRange(s) && held.a && n > 0
    ensures Run(s, seq(n, _ => Polled(held))).buttonAPressed
    ensures Run(s, seq(n, _ => Polled(held))).buttonA == s.buttonA
    ensures InRange(Run(s, seq(n, _ => Polled(held))))
  {
    var h := seq(n, _ => Polled(held));
    HeldKeepsA(s, held, n);
    RunAppend(s, h[..n - 1], [h[n - 1]]);
    assert h == h[..n - 1] + [h[n - 1]];
    RunKeepsRanges(s, h[..n - 1]);
    var t := Run(s, h[..n - 1]);
    StepKeepsRanges(t, Polled(held));
    assert [h[n - 1]][1..] == [];
  }

  /** `Run` over a concatenation is two runs. */
  lemma {:induction false} RunAppend<M>(s: AppState<M>, xs: seq<Poll>, ys: seq<Poll>)
    requires InRange(s)
    ensures InRange(Run(s, xs))
    ensures Run(s, xs + ys) == Run(Run(s, xs), ys)
    decreases |xs|
  {
    RunKeepsRanges(s, xs);
    if xs != [] {
      StepKeepsRanges(s, xs[0]);
      assert (xs + ys)[1..] == xs[1..] + ys;
      RunAppend(Step(s, xs[0]).state, xs[1..], ys);
    } else {
      assert xs + ys == ys;
    }
  }

  /** Every run keeps the counters in range. */
  lemma {:induction false} RunKeepsRanges<M>(s: AppState<M>, polls: seq<Poll>)
    requires InRange(s)
    ensures InRange(Run(s, polls))
    decreases |polls|
  {
    if polls != [] {
      StepKeepsRanges(s, polls[0]);
      RunKeepsRanges(Step(s, polls[0]).state, polls[1..]);
    }
  }

  /** After an update every `*Pressed` flag says whether its control is held. */
  lemma PressedFollowsInput<M>(s: AppState<M>, i: Input)
    requires |s.ringBuf| <= RingCapacity
    ensures var t := Step(s, Polled(i)).state;
      t.buttonAPressed == i.a && t.buttonBPressed == i.b && t.buttonXPressed == i.x
      && t.rtPressed == i.rightIndex && t.ltPressed == i.leftIndex
      && t.rhPressed == i.rightHand && t.lhPressed == i.leftHand
  {
  }

  /** A failed poll changes nothing. */
  lemma FailedPollChangesNothing<M>(s: AppState<M>)
    requires |s.ringBuf| <= RingCapacity
    ensures Step(s, Failed) == Stepped(s, false)
  {
  }

  /** The tracking lag moves by one per trigger release and stays in
      [0, 30]: an RT release alone raises it to `min(30, frameLag + 1)`, an
      LT release alone lowers it to `max(0, frameLag - 1)`. */
  lemma FrameLagMoves<M>(s: AppState<M>, i: Input)
    requires InRange(s)
    ensures var t := Step(s, Polled(i)).state;
      var rt := Released(i.rightIndex, s.rtPressed);
      var lt := Released(i.leftIndex, s.ltPressed);
      && (rt && !lt ==> t.frameLag == Min(30, s.frameLag + 1))
      && (lt && !rt ==> t.frameLag == Max(0, s.frameLag - 1))
      && (!rt && !lt ==> t.frameLag == s.frameLag)
  {
  }

  /** The rendering delay moves by one per hand-trigger release and stays
      in [0, 10]. */
  lemma RenderLagMoves<M>(s: AppState<M>, i: Input)
    requires InRange(s)
    ensures var t := Step(s, Polled(i)).state;
      var rh := Released(i.rightHand, s.rhPressed);
      var lh := Released(i.leftHand, s.lhPressed);
      && (rh && !lh ==> t.renderLag == Min(10, s.renderLag + 1))
      && (lh && !rh ==> t.renderLag == Max(0, s.renderLag - 1))
      && (!rh && !lh ==> t.renderLag == s.renderLag)
  {
  }

  /** With the counter and the buffer in step, an update pops an empty
      buffer exactly when LT is released at lag 0 without an RT release in
      the same poll; otherwise the two stay in step. */
  lemma StepKeepsLockStep<M>(s: AppState<M>, poll: Poll)
    requires InRange(s) && LockStep(s)
    ensures var t := Step(s, poll);
      (t.underrun <==> poll.Polled? && Released(poll.input.leftIndex, s.ltPressed)
                       && !Released(poll.input.rightIndex, s.rtPressed) && s.frameLag == 0)
      && (!t.underrun ==> LockStep(t.state))
  {
  }

  /** The newest matrix after an RT release (without an LT release in the
      same poll) is the camera matrix held at the time: `ringBuf.push_back(camMt)`
      records the pose of the last frame rendered. */
  lemma RightReleaseRecordsCamera<M>(s: AppState<M>, i: Input)
    requires InRange(s)
    requires Released(i.rightIndex, s.rtPressed) && !Released(i.leftIndex, s.ltPressed)
    ensures BackOf(Step(s, Polled(i)).state.ringBuf) == Back(s.camMt)
  {
  }

  /** As written, releasing LT on a fresh state pops the empty buffer. */
  lemma LtReleaseAtZeroUnderruns<M>(cam: M, press: Input, release: Input)
    requires press.leftIndex && !press.rightIndex && !release.leftIndex && !release.rightIndex
    ensures var s1 := Step(Initial(cam), Polled(press)).state;
      s1.frameLag == 0 && Step(s1, Polled(release)).underrun
  {
  }

  /** The corrected lag step keeps `frameLag` and the buffer in step on
      every input, including an LT release at lag 0. */
  lemma GuardedLagStepKeepsLockStep<M>(rt: bool, lt: bool, frameLag: int, buf: seq<M>, cam: M)
    requires |buf| == frameLag && 0 <= frameLag <= MaxFrameLag
    ensures var r := GuardedLagStep(rt, lt, frameLag, buf, cam);
      |r.ringBuf| == r.frameLag && 0 <= r.frameLag <= MaxFrameLag
      && (!rt && lt && frameLag == 0 ==> r.frameLag == 0 && r.ringBuf == [])
  {
  }

  /** The corrected step agrees with the written one whenever the written
      one does not pop an empty buffer. */
  lemma GuardedAgreesWithoutUnderrun<M>(rt: bool, lt: bool, frameLag: int, buf: seq<M>, cam: M)
    requires |buf| == frameLag && 0 <= frameLag <= MaxFrameLag
    requires !LagStep(rt, lt, frameLag, buf, cam).underrun
    ensures GuardedLagStep(rt, lt, frameLag, buf, cam) == LagStep(rt, lt, frameLag, buf, cam)
  {
  }

  /** No update of the run releases the right index trigger. */
  predicate NoRtRelease<M>(s: AppState<M>, polls: seq<Poll>)
    requires InRange(s)
    decreases |polls|
  {
    polls == [] ||
      ((polls[0].Failed? || !Released(polls[0].input.rightIndex, s.rtPressed))
       && (StepKeepsRanges(s, polls[0]);
           NoRtRelease(Step(s, polls[0]).state, polls[1..])))
  }

  /** An empty buffer stays empty until an RT release pushes a matrix, so
      every `renderScene` up to then reads `back()` of the empty buffer. */
  lemma {:induction false} EmptyUntilRtRelease<M>(s: AppState<M>, polls: seq<Poll>)
    requires InRange(s) && s.ringBuf == [] && NoRtRelease(s, polls)
    ensures Run(s, polls).ringBuf == []
    ensures BackOf(Run(s, polls).ringBuf) == EmptyBuffer
    decreases |polls|
  {
    if polls != [] {
      StepKeepsRanges(s, polls[0]);
      EmptyUntilRtRelease(Step(s, polls[0]).state, polls[1..]);
    }
  }

  /** From the freshly constructed state, `back()` has no matrix to return
      after any run of updates without an RT release. */
  lemma NoMatrixBeforeFirstRtRelease<M>(cam: M, polls: seq<Poll>)
    requires NoRtRelease(Initial(cam), polls)
    ensures BackOf(Run(Initial(cam), polls).ringBuf) == EmptyBuffer
  {
    EmptyUntilRtRelease(Initial(cam), polls);
  }

  /** No update of the run pops an empty buffer. */
  predicate NoUnderrun<M>(s: AppState<M>, polls: seq<Poll>)
    requires InRange(s)
    decreases |polls|
  {
    polls == [] ||
      (!Step(s, polls[0]).underrun
       && (StepKeepsRanges(s, polls[0]);
           NoUnderrun(Step(s, polls[0]).state, polls[1..])))
  }

  /** As long as no update pops an empty buffer, `frameLag` counts the
      buffered matrices after every update of the run. */
  lemma {:induction false} RunKeepsLockStep<M>(s: AppState<M>, polls: seq<Poll>)
    requires InRange(s) && LockStep(s) && NoUnderrun(s, polls)
    ensures LockStep(Run(s, polls))
    decreases |polls|
  {
    if polls != [] {
      StepKeepsRanges(s, polls[0]);
      StepKeepsLockStep(s, polls[0]);
      RunKeepsLockStep(Step(s, polls[0]).state, polls[1..]);
    }
  }

  /** `renderScene` after the first update reads `back()` of the empty
      buffer: no RT release can happen before RT has been seen pressed. */
  lemma FirstRenderHasNoMatrix<M>(cam: M, poll: Poll)
    ensures BackOf(Step(Initial(cam), poll).state.ringBuf) == EmptyBuffer
  {
  }

  /** The application object holding the state that `update` and
      `renderScene` share. */
  class App<M> {
    var buttonA: int
    var buttonB: int
    var buttonX: int
    var buttonAPressed: bool
    var buttonBPressed: bool
    var buttonXPressed: bool
    var rtPressed: bool
    var ltPressed: bool
    var rhPressed: bool
    var lhPressed: bool
    var frameLag: int
    var renderLag: int
    var ringBuf: seq<M>
    var camMt: M

    function State(): AppState<M>
      reads this
    {
      AppState(buttonA, buttonB, buttonX, buttonAPressed, buttonBPressed, buttonXPressed,
               rtPressed, ltPressed, rhPressed, lhPressed, frameLag, renderLag, ringBuf, camMt)
    }

    constructor(cam: M)
      ensures State() == Initial(cam)
    {
      buttonA, buttonB, buttonX := 0, 0, 0;
      buttonAPressed, buttonBPressed, buttonXPressed := false, false, false;
      rtPressed, ltPressed, rhPressed, lhPressed := false, false, false, false;
      frameLag, renderLag := 0, 0;
      ringBuf := [];
      camMt := cam;
    }

    /** `ExampleApp::update`, one method per control, in the order the
        function tests them. */
    method Update(poll: Poll) returns (underrun: bool)
      requires |ringBuf| <= RingCapacity
      modifies this
      ensures State() == Step(old(State()), poll).state
      ensures underrun == Step(old(State()), poll).underrun
    {
      underrun := false;
      if poll.Polled? {
        var i := poll.input;
        PollButtons(i);
        underrun := PollIndexTriggers(i);
        PollHandTriggers(i);
      }
    }

    /** The three button edges, in order. */
    method PollButtons(i: Input)
      modifies this
      ensures State() == ButtonStage(old(State()), i)
    {
      PollA(i.a);
      PollB(i.b);
      PollX(i.x);
    }

    /** The index-trigger edges, right before left. */
    method PollIndexTriggers(i: Input) returns (underrun: bool)
      requires |ringBuf| <= RingCapacity
      modifies this
      ensures Stepped(State(), underrun) == IndexStage(old(State()), i)
    {
      underrun := PollRightIndex(i.rightIndex);
      var u := PollLeftIndex(i.leftIndex);
      underrun := underrun || u;
    }

    /** The hand-trigger edges, right before left. */
    method PollHandTriggers(i: Input)
      modifies this
      ensures State() == HandStage(old(State()), i)
    {
      PollRightHand(i.rightHand);
      PollLeftHand(i.leftHand);
    }

    /** The A button edge: held sets the flag; the first poll without it
        advances the counter modulo five and clears the flag. */
    method PollA(held: bool)
      modifies this`buttonA, this`buttonAPressed
      ensures buttonA == if Released(held, old(buttonAPressed)) then CRem(old(buttonA) + 1, ACycle) else old(buttonA)
      ensures buttonAPressed == held
    {
      if held { buttonAPressed := true; }
      else if buttonAPressed { buttonA := CRem(buttonA + 1, ACycle); buttonAPressed := false; }
    }

    /** The B button edge, modulo four. */
    method PollB(held: bool)
      modifies this`buttonB, this`buttonBPressed
      ensures buttonB == if Released(held, old(buttonBPressed)) then CRem(old(buttonB) + 1, BCycle) else old(buttonB)
      ensures buttonBPressed == held
    {
      if held { buttonBPressed := true; }
      else if buttonBPressed { buttonB := CRem(buttonB + 1, BCycle); buttonBPressed := false; }
    }

    /** The X button edge, modulo four. */
    method PollX(held: bool)
      modifies this`buttonX, this`buttonXPressed
      ensures buttonX == if Released(held, old(buttonXPressed)) then CRem(old(buttonX) + 1, XCycle) else old(buttonX)
      ensures buttonXPressed == held
    {
      if held { buttonXPressed := true; }
      else if buttonXPressed { buttonX := CRem(buttonX + 1, XCycle); buttonXPressed := false; }
    }

    /** The right index trigger edge: a release raises `frameLag` by one,
        clamps it to 30 and pushes the camera matrix. */
    method PollRightIndex(held: bool) returns (underrun: bool)
      requires |ringBuf| <= RingCapacity
      modifies this`frameLag, this`ringBuf, this`rtPressed
      ensures !underrun
      ensures frameLag == if Released(held, old(rtPressed)) then Min(MaxFrameLag, old(frameLag) + 1) else old(frameLag)
      ensures ringBuf == if Released(held, old(rtPressed)) then PushBack(old(ringBuf), old(camMt)) else old(ringBuf)
      ensures rtPressed == held
    {
      underrun := false;
      if held { rtPressed := true; }
      else if rtPressed {
        frameLag := frameLag + 1;
        frameLag := Min(MaxFrameLag, frameLag);
        ringBuf := PushBack(ringBuf, camMt);
        rtPressed := false;
      }
    }

    /** The left index trigger edge: a release lowers `frameLag` by one,
        clamps it to 0 and calls `pop_back`; `underrun` reports that call on
        an empty buffer. */
    method PollLeftIndex(held: bool) returns (underrun: bool)
      modifies this`frameLag, this`ringBuf, this`ltPressed
      ensures underrun <==> Released(held, old(ltPressed)) && old(ringBuf) == []
      ensures frameLag == if Released(held, old(ltPressed)) then Max(0, old(frameLag) - 1) else old(frameLag)
      ensures ringBuf == if Released(held, old(ltPressed)) &&
        old(ringBuf) != [] then old(ringBuf)[..|old(ringBuf)| - 1] else old(ringBuf)
      ensures ltPressed == held
    {
      underrun := false;
      if held { ltPressed := true; }
      else if ltPressed {
        frameLag := frameLag - 1;
        frameLag := Max(0, frameLag);
        if ringBuf == [] { underrun := true; }
        else { ringBuf := ringBuf[..|ringBuf| - 1]; }
        ltPressed := false;
      }
    }

    /** The right hand trigger edge.  `renderLag++; renderLag =
        std::min(10, renderLag++);` is spelled out: the post-increment in
        the argument is overwritten by the assignment, so the net effect is
        a single step up to at most ten. */
    method PollRightHand(held: bool)
      modifies this`renderLag, this`rhPressed
      ensures renderLag == if Released(held, old(rhPressed)) then Min(MaxRenderLag, old(renderLag) + 1) else old(renderLag)
      ensures rhPressed == held
    {
      if held { rhPressed := true; }
      else if rhPressed {
        renderLag := renderLag + 1;
        var argument := renderLag;
        renderLag := renderLag + 1;
        renderLag := Min(MaxRenderLag, argument);
        rhPressed := false;
      }
    }

    /** The left hand trigger edge, the doubled decrement likewise netting a
        single step down to at least zero. */
    method PollLeftHand(held: bool)
      modifies this`renderLag, this`lhPressed
      ensures renderLag == if Released(held, old(lhPressed)) then Max(0, old(renderLag) - 1) else old(renderLag)
      ensures lhPressed == held
    {
      if held { lhPressed := true; }
      else if lhPressed {
        renderLag := renderLag - 1;
        var argument := renderLag;
        renderLag := renderLag - 1;
        renderLag := Max(0, argument);
        lhPressed := false;
      }
    }

    /** `ExampleApp::renderScene`: records the head pose as `camMt` and
        hands the newest buffered matrix to the scene. */
    method RenderScene(headPose: M) returns (view: Back<M>)
      modifies this
      ensures State() == old(State()).(camMt := headPose)
      ensures view == BackOf(ringBuf)
    {
      camMt := headPose;
      view := BackOf(ringBuf);
    }
  }
}
