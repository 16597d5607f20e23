/**
 * The touch-gesture state machine of the pull-to-refresh widget, written as
 * values and pure transition functions.  A `ViewState` holds every field that
 * the widget's gesture logic reads or writes; each function below is one of the
 * widget's operations on that state.  The class in refreshable_view.dfy keeps
 * the same fields and is proved to follow these functions step by step.
 */
module Gesture {

  datatype Option<T> = None | Some(value: T)

  /** The four STATUS_* codes: 0 pull, 1 release, 2 refreshing, 3 finished. */
  datatype Status = PullToRefresh | ReleaseToRefresh | Refreshing | RefreshFinished

  /**
   * The actions `onTouch` tells apart.  `Up` stands for ACTION_UP and for every
   * other action code, since they all share the `default` arm of the switch.
   */
  datatype Action = Down | Move | Up

  /** A touch event: its action and its raw (screen) Y coordinate, a Java float. */
  datatype TouchEvent = TouchEvent(action: Action, rawY: real)

  /**
   * What the list shows at its top: no first child, or the position of the
   * first visible item and the first child's top edge.
   */
  datatype ListTop = NoChild | FirstChild(firstVisiblePosition: int, top: int)

  /** The degree pair handed to the arrow's rotation animation. */
  datatype Rotation = Rotation(fromDegrees: int, toDegrees: int)

  /** What the header shows: arrow, progress bar, and the arrow's last started rotation. */
  datatype Header = Header(arrowVisible: bool, progressVisible: bool, arrowRotation: Option<Rotation>)

  /** The header while a refresh runs: arrow gone with its animation cleared, progress bar shown. */
  const ProgressHeader := Header(false, true, None)

  /** Duration of the closing scroll. */
  const SCROLL_TIME := 2000

  /**
   * The Scroller: idle, or running a scroll that starts at `startY` and moves by
   * `dy` over `duration`.  Only where it ends is modelled.
   */
  datatype Scroller = Idle | Scrolling(startY: int, dy: int, duration: int)
  {
    function FinalY(): int
      requires Scrolling?
    {
      startY + dy
    }
  }

  /** Every field of the widget that the gesture logic touches. */
  datatype ViewState = ViewState(
    scrollY: int,
    currentStatus: Status,
    lastStatus: Status,
    yDown: real,
    lastY: real,
    ableToPull: bool,
    loadOnce: bool,
    hideHeaderHeight: int,
    touchSlop: int,
    hasListener: bool,
    refreshCount: nat,
    scroller: Scroller,
    header: Header)

  /** The outcome of `onTouch`: the new state and whether the event was consumed. */
  datatype TouchResult = TouchResult(state: ViewState, consumed: bool)

  /** Field values right after construction; the header is as its layout resource declares it. */
  function Initial(touchSlop: int, header: Header): (s: ViewState)
    ensures s.currentStatus == RefreshFinished && s.lastStatus == RefreshFinished
    ensures s.scrollY == 0 && s.scroller == Idle && !s.ableToPull && !s.loadOnce
    ensures s.refreshCount == 0 && !s.hasListener && s.touchSlop == touchSlop
  {
    ViewState(0, RefreshFinished, RefreshFinished, 0.0, 0.0, false, false, 0, touchSlop,
              false, 0, Idle, header)
  }

  predicate Active(status: Status) {
    status == PullToRefresh || status == ReleaseToRefresh
  }

  /** The list is scrolled to its very top (or is empty), so the header may be pulled. */
  predicate AtTop(list: ListTop) {
    list.NoChild? || (list.firstVisiblePosition == 0 && list.top == 0)
  }

  /**
   * Java's `(int)` cast of a float: truncation toward zero.  (Saturation at the
   * int range and NaN are not modelled.)
   */
  function TruncateToInt(x: real): (r: int)
    ensures 0.0 <= x ==> 0 <= r && r as real <= x < r as real + 1.0
    ensures x < 0.0 ==> r <= 0 && x <= r as real < x + 1.0
  {
    if 0.0 <= x then x.Floor else -((-x).Floor)
  }

  /** onLayout: the one-time set-up that hides the header above the list. */
  function OnLayout(s: ViewState, changed: bool, headerHeight: nat): (t: ViewState)
    ensures changed && !s.loadOnce
            ==> t == s.(hideHeaderHeight := -(headerHeight as int), loadOnce := true)
    ensures !changed || s.loadOnce ==> t == s
    ensures t.loadOnce
            ==> t.hideHeaderHeight <= 0 || (s.loadOnce && t.hideHeaderHeight == s.hideHeaderHeight)
  {
    if changed && !s.loadOnce then
      s.(hideHeaderHeight := -(headerHeight as int), loadOnce := true)
    else
      s
  }

  /**
   * isAbleToPull: pulling is allowed exactly when the list is at its top.  Only
   * a list that has a first child and turns pullable resets the drag origin.
   */
  function IsAbleToPull(s: ViewState, list: ListTop, rawY: real): (t: ViewState)
    ensures t.ableToPull <==> AtTop(list)
    ensures t.yDown == (if list.FirstChild? && AtTop(list) && !s.ableToPull then rawY else s.yDown)
    ensures t == s.(ableToPull := t.ableToPull, yDown := t.yDown)
  {
    match list
    case NoChild => s.(ableToPull := true)
    case FirstChild(position, top) =>
      if position == 0 && top == 0 then
        s.(yDown := if !s.ableToPull then rawY else s.yDown, ableToPull := true)
      else
        s.(ableToPull := false)
  }

  /** rotateArrow: the degree pair chosen for the current status. */
  function ArrowRotation(status: Status): (r: Rotation)
    ensures Active(status) ==> r.toDegrees == r.fromDegrees + 180
    ensures status == PullToRefresh ==> r == Rotation(180, 360)
    ensures status == ReleaseToRefresh ==> r == Rotation(0, 180)
    ensures !Active(status) ==> r == Rotation(0, 0)
  {
    match status
    case PullToRefresh => Rotation(180, 360)
    case ReleaseToRefresh => Rotation(0, 180)
    case _ => Rotation(0, 0)
  }

  /**
   * updateHeaderView: redraws the header for the current status, unless that
   * status is the one recorded as last shown.
   */
  function UpdateHeaderView(s: ViewState): (t: ViewState)
    ensures s.lastStatus == s.currentStatus || s.currentStatus == RefreshFinished ==> t == s
    ensures t == s.(header := t.header)
    ensures s.lastStatus != s.currentStatus && Active(s.currentStatus)
            ==> t.header == Header(true, false, Some(ArrowRotation(s.currentStatus)))
    ensures s.lastStatus != s.currentStatus && s.currentStatus == Refreshing
            ==> t.header == ProgressHeader
  {
    if s.lastStatus == s.currentStatus then s
    else
      match s.currentStatus
      case PullToRefresh =>
        s.(header := Header(true, false, Some(ArrowRotation(s.currentStatus))))
      case ReleaseToRefresh =>
        s.(header := Header(true, false, Some(ArrowRotation(s.currentStatus))))
      case Refreshing => s.(header := ProgressHeader)
      case RefreshFinished => s
  }

  /** smoothScrollBy: starts a scroll from the current offset that ends with the header hidden. */
  function SmoothScrollBy(s: ViewState): (t: ViewState)
    ensures t.scroller.Scrolling? && t.scroller.FinalY() == 0
    ensures t.scroller.startY == s.scrollY && t.scroller.duration == SCROLL_TIME
    ensures t == s.(scroller := t.scroller)
  {
    s.(scroller := Scrolling(s.scrollY, -s.scrollY, SCROLL_TIME))
  }

  /** computeScroll, collapsed to its last frame: the view lands where the scroll ends. */
  function ComputeScroll(s: ViewState): (t: ViewState)
    ensures s.scroller.Scrolling? ==> t == s.(scrollY := s.scroller.FinalY(), scroller := Idle)
    ensures s.scroller.Idle? ==> t == s
  {
    match s.scroller
    case Idle => s
    case Scrolling(startY, dy, _) => s.(scrollY := startY + dy, scroller := Idle)
  }

  /** onRefresh: the listener, when one is registered, is called once. */
  function OnRefresh(s: ViewState): (t: ViewState)
    ensures t.refreshCount == s.refreshCount + (if s.hasListener then 1 else 0)
    ensures t == s.(refreshCount := t.refreshCount)
  {
    if s.hasListener then s.(refreshCount := s.refreshCount + 1) else s
  }

  /** finishRefresh: back to the finished status, and the header scrolls closed. */
  function FinishRefresh(s: ViewState): (t: ViewState)
    ensures t.currentStatus == RefreshFinished
    ensures t.scroller.Scrolling? && t.scroller.FinalY() == 0 && t.scroller.startY == s.scrollY
    ensures t == s.(currentStatus := RefreshFinished, scroller := t.scroller)
  {
    SmoothScrollBy(s.(currentStatus := RefreshFinished))
  }

  /**
   * The block after the switch in onTouch: in the pull or release status the
   * header is refreshed, the status is recorded as last shown, and the event is
   * consumed; otherwise nothing happens and the event goes to the list.
   */
  function AfterAction(s: ViewState): (r: TouchResult)
    ensures r.consumed <==> Active(s.currentStatus)
    ensures r.consumed ==> r.state == UpdateHeaderView(s).(lastStatus := s.currentStatus)
    ensures !r.consumed ==> r.state == s
  {
    if Active(s.currentStatus) then
      TouchResult(UpdateHeaderView(s).(lastStatus := s.currentStatus), true)
    else
      TouchResult(s, false)
  }

  /** ACTION_DOWN: the drag origin and the last Y both become the event's raw Y. */
  function TouchDown(s: ViewState, rawY: real): (r: TouchResult)
    ensures r.state.yDown == rawY && r.state.lastY == rawY
    ensures r.state.scrollY == s.scrollY && r.state.currentStatus == s.currentStatus
    ensures r.state.refreshCount == s.refreshCount && r.state.scroller == s.scroller
    ensures r.consumed <==> Active(s.currentStatus)
    ensures r.consumed ==> r.state.lastStatus == s.currentStatus
    ensures !r.consumed ==> r.state == s.(yDown := rawY, lastY := rawY)
  {
    AfterAction(s.(yDown := rawY, lastY := rawY))
  }

  /** A move that the two early returns of ACTION_MOVE hand back to the list. */
  predicate MoveDeclined(s: ViewState, rawY: real) {
    (rawY - s.yDown <= 0.0 && s.scrollY == 0) || rawY - s.yDown < s.touchSlop as real
  }

  /** A move past the early returns that drags the header (the finger is below its origin). */
  predicate MoveDrags(s: ViewState, rawY: real) {
    !MoveDeclined(s, rawY) && rawY - s.yDown > 0.0 && s.scrollY <= 0
  }

  /**
   * ACTION_MOVE.  A declined move only records the Y.  A dragging move picks
   * the status from the offset BEFORE it scrolls, then scrolls the view by the
   * truncated finger movement since the last event.
   */
  function TouchMove(s: ViewState, rawY: real): (r: TouchResult)
    ensures MoveDeclined(s, rawY) ==> r == TouchResult(s.(lastY := rawY), false)
    ensures MoveDrags(s, rawY) ==>
      && r.consumed
      && r.state.currentStatus
           == (if s.scrollY < s.hideHeaderHeight then ReleaseToRefresh else PullToRefresh)
      && r.state.lastStatus == r.state.currentStatus
      && r.state.scrollY == s.scrollY - TruncateToInt(rawY - s.lastY)
      && r.state.lastY == rawY && r.state.yDown == s.yDown
      && r.state.refreshCount == s.refreshCount && r.state.scroller == s.scroller
    ensures !MoveDeclined(s, rawY) && !MoveDrags(s, rawY) ==>
      && r.state.scrollY == s.scrollY && r.state.currentStatus == s.currentStatus
      && r.state.lastY == rawY && r.state.refreshCount == s.refreshCount
      && (r.consumed <==> Active(s.currentStatus))
  {
    if rawY - s.yDown <= 0.0 && s.scrollY == 0 then
      TouchResult(s.(lastY := rawY), false)
    else if rawY - s.yDown < s.touchSlop as real then
      TouchResult(s.(lastY := rawY), false)
    else
      var dragged :=
        if rawY - s.yDown > 0.0 && s.scrollY <= 0 then
          s.(currentStatus :=
               if s.scrollY < s.hideHeaderHeight then ReleaseToRefresh else PullToRefresh,
             scrollY := s.scrollY + -TruncateToInt(rawY - s.lastY))
        else s;
      AfterAction(dragged.(lastY := rawY))
  }

  /**
   * ACTION_UP and every other action.  In the release status a refresh starts
   * and the listener is called; in the pull status the header scrolls closed but
   * the status stays pull; in any other status nothing happens.
   */
  function TouchUp(s: ViewState): (r: TouchResult)
    ensures s.currentStatus == ReleaseToRefresh ==>
      && !r.consumed
      && r.state.currentStatus == Refreshing
      && r.state.refreshCount == s.refreshCount + (if s.hasListener then 1 else 0)
      && r.state.scrollY == s.scrollY && r.state.scroller == s.scroller
      && r.state.lastStatus == s.lastStatus
      && (s.lastStatus != Refreshing ==> r.state.header == ProgressHeader)
    ensures s.currentStatus == PullToRefresh ==>
      && r.consumed
      && r.state.currentStatus == PullToRefresh && r.state.lastStatus == PullToRefresh
      && r.state.scroller.Scrolling? && r.state.scroller.FinalY() == 0
      && r.state.scrollY == s.scrollY && r.state.refreshCount == s.refreshCount
    ensures !Active(s.currentStatus) ==> r == TouchResult(s, false)
  {
    var closing := if s.currentStatus == PullToRefresh then SmoothScrollBy(s) else s;
    var next :=
      if closing.currentStatus == ReleaseToRefresh then
        OnRefresh(UpdateHeaderView(closing.(currentStatus := Refreshing)))
      else closing;
    AfterAction(next)
  }

  /** A release in the release status, on a list at its top: the one event that starts a refresh. */
  predicate StartsRefresh(s: ViewState, event: TouchEvent, list: ListTop) {
    event.action == Up && AtTop(list) && s.currentStatus == ReleaseToRefresh
  }

  /**
   * onTouch.  Pull-ability is checked first; when the list is not at its top the
   * event goes to the list and only `ableToPull` changes.
   */
  function OnTouch(s: ViewState, event: TouchEvent, list: ListTop): (r: TouchResult)
    ensures !AtTop(list) ==> r == TouchResult(s.(ableToPull := false), false)
    ensures r.consumed ==>
      Active(r.state.currentStatus) && r.state.lastStatus == r.state.currentStatus
    ensures r.state.refreshCount
            == s.refreshCount + (if StartsRefresh(s, event, list) && s.hasListener then 1 else 0)
    ensures (s.currentStatus != Refreshing && r.state.currentStatus == Refreshing)
            <==> StartsRefresh(s, event, list)
    ensures r.state.hideHeaderHeight == s.hideHeaderHeight && r.state.touchSlop == s.touchSlop
    ensures r.state.loadOnce == s.loadOnce && r.state.hasListener == s.hasListener
  {
    var checked := IsAbleToPull(s, list, event.rawY);
    if !checked.ableToPull then
      TouchResult(checked, false)
    else
      match event.action
      case Down => TouchDown(checked, event.rawY)
      case Move => TouchMove(checked, event.rawY)
      case Up => TouchUp(checked)
  }
}
