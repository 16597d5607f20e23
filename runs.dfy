/**
 * Sequences of inputs to the gesture state machine: touch events, calls to
 * finishRefresh, and the last frame of the closing scroll.  The lemmas here
 * relate many steps: an invariant every reachable state keeps, the exact
 * number of refresh callbacks, what a run on a list away from its top leaves
 * alone, and how far a downward drag can reveal the header.
 */
module GestureRuns {
  import opened Gesture

  /** One thing that can happen to the widget. */
  datatype Input =
    | Touch(event: TouchEvent, list: ListTop)   // onTouch, with the list as it is at that moment
    | Finish                                    // finishRefresh()
    | ScrollEnd                                 // the closing scroll reaches its end

  datatype RunResult = RunResult(state: ViewState, consumed: seq<bool>)

  function Step(s: ViewState, input: Input): TouchResult {
    match input
    case Touch(event, list) => OnTouch(s, event, list)
    case Finish => TouchResult(FinishRefresh(s), false)
    case ScrollEnd => TouchResult(ComputeScroll(s), false)
  }

  /** Feeds the inputs to the widget in order; `consumed[i]` is what input i returned. */
  function Run(s: ViewState, inputs: seq<Input>): (r: RunResult)
    ensures |r.consumed| == |inputs|
    ensures r.state.hideHeaderHeight == s.hideHeaderHeight && r.state.touchSlop == s.touchSlop
    ensures r.state.loadOnce == s.loadOnce && r.state.hasListener == s.hasListener
    decreases |inputs|
  {
    if inputs == [] then RunResult(s, [])
    else
      var first := Step(s, inputs[0]);
      var rest := Run(first.state, inputs[1..]);
      RunResult(rest.state, [first.consumed] + rest.consumed)
  }

  /**
   * What holds between events in every reachable state: the pull and release
   * statuses are always the ones last shown, the status last shown is never
   * refreshing, a refresh shows the progress bar, and any scroll under way
   * closes the header.
   */
  predicate Consistent(s: ViewState) {
    && (Active(s.currentStatus) ==> s.lastStatus == s.currentStatus)
    && s.lastStatus != Refreshing
    && (s.currentStatus == Refreshing ==> s.header == ProgressHeader)
    && (s.scroller.Scrolling? ==> s.scroller.FinalY() == 0)
  }

  lemma InitialConsistent(touchSlop: int, header: Header, changed: bool, headerHeight: nat)
    ensures Consistent(Initial(touchSlop, header))
    ensures Consistent(OnLayout(Initial(touchSlop, header), changed, headerHeight))
  {
  }

  lemma StepKeepsConsistent(s: ViewState, input: Input)
    requires Consistent(s)
    ensures Consistent(Step(s, input).state)
  {
  }

  lemma {:induction false} RunKeepsConsistent(s: ViewState, inputs: seq<Input>)
    requires Consistent(s)
    ensures Consistent(Run(s, inputs).state)
    decreases |inputs|
  {
    if inputs != [] {
      StepKeepsConsistent(s, inputs[0]);
      RunKeepsConsistent(Step(s, inputs[0]).state, inputs[1..]);
    }
  }

  /**
   * How many times a run enters the refreshing status, counted from the
   * statuses alone.
   */
  function RefreshEntries(s: ViewState, inputs: seq<Input>): nat
    decreases |inputs|
  {
    if inputs == [] then 0
    else
      var next := Step(s, inputs[0]).state;
      (if s.currentStatus != Refreshing && next.currentStatus == Refreshing then 1 else 0)
        + RefreshEntries(next, inputs[1..])
  }

  /**
   * A registered listener is called exactly once per entry into the refreshing
   * status, and never otherwise.
   */
  lemma {:induction false} RefreshCallbacksMatchEntries(s: ViewState, inputs: seq<Input>)
    ensures Run(s, inputs).state.refreshCount
            == s.refreshCount + (if s.hasListener then RefreshEntries(s, inputs) else 0)
    decreases |inputs|
  {
    if inputs != [] {
      RefreshCallbacksMatchEntries(Step(s, inputs[0]).state, inputs[1..]);
    }
  }

  /** Every input is a touch on a list that is scrolled away from its top. */
  predicate AwayFromTop(inputs: seq<Input>) {
    forall i :: 0 <= i < |inputs| ==> inputs[i].Touch? && !AtTop(inputs[i].list)
  }

  /**
   * While the list is never at its top, the widget consumes no event and its
   * offset, statuses, header, scroll and callbacks stay as they were; only
   * `ableToPull` drops to false.
   */
  lemma {:induction false} AwayFromTopChangesNothing(s: ViewState, inputs: seq<Input>)
    requires AwayFromTop(inputs)
    ensures inputs != [] ==> Run(s, inputs).state == s.(ableToPull := false)
    ensures forall i :: 0 <= i < |inputs| ==> !Run(s, inputs).consumed[i]
    decreases |inputs|
  {
    if inputs != [] {
      var next := Step(s, inputs[0]).state;
      assert next == s.(ableToPull := false);
      assert AwayFromTop(inputs[1..]) by {
        forall i | 0 <= i < |inputs[1..]|
          ensures inputs[1..][i].Touch? && !AtTop(inputs[1..][i].list)
        {
          assert inputs[1..][i] == inputs[i + 1];
        }
      }
      AwayFromTopChangesNothing(next, inputs[1..]);
      var rest := Run(next, inputs[1..]);
      assert Run(s, inputs).consumed == [false] + rest.consumed;
    }
  }

  /** Every input is a move on a list at its top, with the finger never going back up. */
  predicate DownwardDrag(s: ViewState, inputs: seq<Input>) {
    && (forall i :: 0 <= i < |inputs| ==>
          inputs[i].Touch? && inputs[i].event.action == Move && AtTop(inputs[i].list))
    && (forall i :: 0 <= i < |inputs| - 1 ==> inputs[i].event.rawY <= inputs[i + 1].event.rawY)
    && (inputs != [] ==> s.lastY <= inputs[0].event.rawY)
  }

  /**
   * A downward drag that starts with the header not pulled past hidden never
   * hides the header again, and reveals it by at most the distance the finger
   * travelled (each step reveals the truncated movement since the last event).
   */
  lemma {:induction false} DragRevealsAtMostFingerTravel(s: ViewState, inputs: seq<Input>)
    requires s.scrollY <= 0
    requires DownwardDrag(s, inputs)
    ensures Run(s, inputs).state.scrollY <= s.scrollY
    ensures inputs != [] ==>
      && Run(s, inputs).state.lastY == inputs[|inputs| - 1].event.rawY
      && (s.scrollY - Run(s, inputs).state.scrollY) as real
         <= inputs[|inputs| - 1].event.rawY - s.lastY
    decreases |inputs|
  {
    if inputs != [] {
      var y := inputs[0].event.rawY;
      var next := Step(s, inputs[0]).state;
      assert next.lastY == y;
      assert next.scrollY <= s.scrollY && (s.scrollY - next.scrollY) as real <= y - s.lastY by {
        var checked := IsAbleToPull(s, inputs[0].list, y);
        assert next == TouchMove(checked, y).state;
        if MoveDrags(checked, y) {
          var d := TruncateToInt(y - checked.lastY);
          assert 0 <= d && d as real <= y - s.lastY;
        }
      }
      assert DownwardDrag(next, inputs[1..]) by {
        forall i | 0 <= i < |inputs[1..]|
          ensures inputs[1..][i].Touch? && inputs[1..][i].event.action == Move
          ensures AtTop(inputs[1..][i].list)
        {
          assert inputs[1..][i] == inputs[i + 1];
        }
        forall i | 0 <= i < |inputs[1..]| - 1
          ensures inputs[1..][i].event.rawY <= inputs[1..][i + 1].event.rawY
        {
          assert inputs[1..][i] == inputs[i + 1];
        }
      }
      DragRevealsAtMostFingerTravel(next, inputs[1..]);
    }
  }

  /** finishRefresh twice in a row ends exactly where calling it once does. */
  lemma FinishRefreshIdempotent(s: ViewState)
    ensures Step(FinishRefresh(s), Finish).state == FinishRefresh(s)
  {
  }

  /** After finishRefresh, whatever the offset was, the header is hidden once the scroll ends. */
  lemma FinishRefreshClosesHeader(s: ViewState)
    ensures ComputeScroll(FinishRefresh(s)).scrollY == 0
    ensures ComputeScroll(FinishRefresh(s)).currentStatus == RefreshFinished
  {
  }

  /**
   * A release in the pull status closes the header once the scroll completes,
   * but leaves the status at pull: the next touch-down is consumed too.
   */
  lemma ReleaseInPullClosesHeaderKeepsPull(s: ViewState, rawY: real, list: ListTop, y2: real)
    requires s.currentStatus == PullToRefresh && AtTop(list)
    ensures ComputeScroll(OnTouch(s, TouchEvent(Up, rawY), list).state).scrollY == 0
    ensures ComputeScroll(OnTouch(s, TouchEvent(Up, rawY), list).state).currentStatus == PullToRefresh
    ensures OnTouch(ComputeScroll(OnTouch(s, TouchEvent(Up, rawY), list).state),
                    TouchEvent(Down, y2), list).consumed
  {
  }

  /** The widget after layout with a 100-unit header and a touch slop of 10. */
  function Laid(): (s: ViewState)
    ensures Consistent(s) && s.hideHeaderHeight == -100 && s.touchSlop == 10
    ensures s.currentStatus == RefreshFinished && s.scrollY == 0
  {
    OnLayout(Initial(10, Header(true, false, None)), true, 100).(hasListener := true)
  }

  /**
   * A pull from 500 to 520 to 620 leaves the status at pull, not release,
   * because the status is chosen from the offset before each move's scroll; the
   * release that follows closes the header without a refresh.  One more move
   * switches to release, and only then does a release start a refresh.
   */
  lemma PullStatusLagsOneMove()
    ensures var list := NoChild;
      var r := Run(Laid(), [Touch(TouchEvent(Down, 500.0), list),
                            Touch(TouchEvent(Move, 520.0), list),
                            Touch(TouchEvent(Move, 620.0), list)]);
      && r.state.scrollY == -120 && r.state.currentStatus == PullToRefresh
      && r.consumed == [false, true, true]
      && Step(r.state, Touch(TouchEvent(Up, 620.0), list)).state.currentStatus == PullToRefresh
      && Step(r.state, Touch(TouchEvent(Up, 620.0), list)).state.refreshCount == 0
      && var m := Step(r.state, Touch(TouchEvent(Move, 621.0), list)).state;
         && m.currentStatus == ReleaseToRefresh && m.scrollY == -121
         && Step(m, Touch(TouchEvent(Up, 621.0), list)).state.currentStatus == Refreshing
         && Step(m, Touch(TouchEvent(Up, 621.0), list)).state.refreshCount == 1
  {
    var list := NoChild;
    var down, move1, move2 :=
      Touch(TouchEvent(Down, 500.0), list), Touch(TouchEvent(Move, 520.0), list),
      Touch(TouchEvent(Move, 620.0), list);
    var s0 := Laid();
    var s1 := Step(s0, down).state;
    assert s1.yDown == 500.0 && s1.lastY == 500.0 && s1.scrollY == 0;
    var s2 := Step(s1, move1).state;
    assert s2.currentStatus == PullToRefresh && s2.scrollY == -20 && s2.lastY == 520.0;
    var s3 := Step(s2, move2).state;
    assert s3.currentStatus == PullToRefresh && s3.scrollY == -120 && s3.lastY == 620.0;
    assert Run(s2, [move2]) == RunResult(s3, [true]);
    assert [down, move1, move2][1..] == [move1, move2] && [move1, move2][1..] == [move2];
    assert Run(s1, [move1, move2]) == RunResult(s3, [true, true]);
    assert Run(s0, [down, move1, move2]) == RunResult(s3, [false, true, true]);
    var m := Step(s3, Touch(TouchEvent(Move, 621.0), list)).state;
    assert m.currentStatus == ReleaseToRefresh && m.scrollY == -121;
  }

  /**
   * The widget refreshing at offset -150 with one callback made, the progress
   * bar shown and release last shown; `RefreshedReachable` proves a pull from
   * 500 to 650 and a release lead here.
   */
  function Refreshed(): ViewState {
    Laid().(scrollY := -150, currentStatus := Refreshing, lastStatus := ReleaseToRefresh,
            yDown := 500.0, lastY := 650.0, ableToPull := true, refreshCount := 1,
            header := ProgressHeader)
  }

  lemma RefreshedReachable()
    ensures var list := NoChild;
      Run(Laid(), [Touch(TouchEvent(Down, 500.0), list),
                   Touch(TouchEvent(Move, 520.0), list),
                   Touch(TouchEvent(Move, 640.0), list),
                   Touch(TouchEvent(Move, 650.0), list),
                   Touch(TouchEvent(Up, 650.0), list)]).state == Refreshed()
  {
    var list := NoChild;
    var inputs := [Touch(TouchEvent(Down, 500.0), list),
                   Touch(TouchEvent(Move, 520.0), list),
                   Touch(TouchEvent(Move, 640.0), list),
                   Touch(TouchEvent(Move, 650.0), list),
                   Touch(TouchEvent(Up, 650.0), list)];
    var s0 := Laid();
    var s1 := Step(s0, inputs[0]).state;
    assert s1.yDown == 500.0 && s1.lastY == 500.0 && s1.scrollY == 0 && s1.ableToPull;
    var s2 := Step(s1, inputs[1]).state;
    assert s2.currentStatus == PullToRefresh && s2.scrollY == -20;
    var s3 := Step(s2, inputs[2]).state;
    assert s3.currentStatus == PullToRefresh && s3.scrollY == -140 && s3.lastY == 640.0;
    var s4 := Step(s3, inputs[3]).state;
    assert s4.currentStatus == ReleaseToRefresh && s4.lastStatus == ReleaseToRefresh;
    assert s4.scrollY == -150 && s4.yDown == 500.0;
    var s5 := Step(s4, inputs[4]).state;
    assert s5 == Refreshed();
    assert Run(s5, inputs[5..]).state == s5;
    assert Run(s4, inputs[4..]).state == s5;
    assert Run(s3, inputs[3..]).state == s5;
    assert Run(s2, inputs[2..]).state == s5;
    assert Run(s1, inputs[1..]).state == s5;
  }

  /**
   * The header can show the progress bar while the status is release: after a
   * refresh and finishRefresh, a new gesture that drags before the closing
   * scroll ends re-enters release; the status last shown is already release,
   * so the header is not redrawn.
   */
  lemma ProgressShownWhileRelease()
    ensures var list := NoChild;
      var r := Run(Refreshed(), [Finish,
                                 Touch(TouchEvent(Down, 660.0), list),
                                 Touch(TouchEvent(Move, 680.0), list)]);
      && r.state.currentStatus == ReleaseToRefresh
      && r.state.header == ProgressHeader
      && r.state.refreshCount == 1
  {
    var list := NoChild;
    var inputs := [Finish, Touch(TouchEvent(Down, 660.0), list), Touch(TouchEvent(Move, 680.0), list)];
    var s5 := Refreshed();
    var s6 := Step(s5, inputs[0]).state;
    assert s6.currentStatus == RefreshFinished && s6.lastStatus == ReleaseToRefresh;
    assert s6.scrollY == -150 && s6.header == ProgressHeader;
    var s7 := Step(s6, inputs[1]).state;
    assert s7.yDown == 660.0 && s7.lastY == 660.0 && s7.currentStatus == RefreshFinished;
    var s8 := Step(s7, inputs[2]).state;
    assert s8.currentStatus == ReleaseToRefresh && s8.header == ProgressHeader;
    assert Run(s8, inputs[3..]).state == s8;
    assert Run(s7, inputs[2..]).state == s8;
    assert Run(s6, inputs[1..]).state == s8;
    assert Run(s5, inputs).state == s8;
  }

  /**
   * A new gesture during a refresh, with no finishRefresh yet, leaves the
   * refreshing status: a drag while the header is still open re-enters release,
   * and the next release calls the listener a second time while the first
   * refresh is still running.
   */
  lemma SecondRefreshWhileRefreshing()
    ensures var list := NoChild;
      var r := Run(Refreshed(), [Touch(TouchEvent(Down, 700.0), list),
                                 Touch(TouchEvent(Move, 720.0), list),
                                 Touch(TouchEvent(Up, 720.0), list)]);
      && r.state.currentStatus == Refreshing
      && r.state.refreshCount == 2
      && r.consumed == [false, true, false]
  {
    var list := NoChild;
    var inputs := [Touch(TouchEvent(Down, 700.0), list),
                   Touch(TouchEvent(Move, 720.0), list),
                   Touch(TouchEvent(Up, 720.0), list)];
    var s5 := Refreshed();
    var r6 := Step(s5, inputs[0]);
    assert r6.state.yDown == 700.0 && r6.state.currentStatus == Refreshing && !r6.consumed;
    var r7 := Step(r6.state, inputs[1]);
    assert r7.state.currentStatus == ReleaseToRefresh && r7.consumed && r7.state.refreshCount == 1;
    var r8 := Step(r7.state, inputs[2]);
    assert r8.state.currentStatus == Refreshing && r8.state.refreshCount == 2 && !r8.consumed;
    assert Run(r8.state, inputs[3..]) == RunResult(r8.state, []);
    assert Run(r7.state, inputs[2..]) == RunResult(r8.state, [false]);
    assert Run(r6.state, inputs[1..]) == RunResult(r8.state, [true, false]);
    assert Run(s5, inputs) == RunResult(r8.state, [false, true, false]);
  }
}
