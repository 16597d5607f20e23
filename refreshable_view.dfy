/**
 * The widget itself: a class with the fields its gesture logic updates in
 * place.  Each method changes the fields as the Java method does, and its
 * postcondition ties the new field values to the transition function of the
 * same name in module Gesture, so every property proved there and in module
 * GestureRuns holds of the object.
 */
module Widget {
  import opened Gesture

  class RefreshableView {
    var scrollY: int                // the view's vertical scroll offset (negative: header revealed)
    var currentStatus: Status
    var lastStatus: Status          // the status the header was last drawn for
    var yDown: real                 // raw Y where the drag started
    var lastY: real                 // raw Y of the previous event
    var ableToPull: bool
    var loadOnce: bool
    var hideHeaderHeight: int       // minus the header's height, once laid out
    const touchSlop: int            // the platform's touch slop
    var hasListener: bool           // a PullToRefreshListener is registered
    var refreshCount: nat           // how many times the listener has been called
    var scroller: Scroller
    var header: Header

    /** The object's fields as a value of the state machine. */
    function Model(): ViewState
      reads this
    {
      ViewState(scrollY, currentStatus, lastStatus, yDown, lastY, ableToPull, loadOnce,
                hideHeaderHeight, touchSlop, hasListener, refreshCount, scroller, header)
    }

    /** The header's initial visibilities are the ones its layout resource declares. */
    constructor (touchSlop: int, arrowVisible: bool, progressVisible: bool)
      ensures Model() == Initial(touchSlop, Header(arrowVisible, progressVisible, None))
    {
      this.touchSlop := touchSlop;
      scrollY := 0;
      currentStatus := RefreshFinished;
      lastStatus := RefreshFinished;
      yDown, lastY := 0.0, 0.0;
      ableToPull, loadOnce := false, false;
      hideHeaderHeight := 0;
      hasListener, refreshCount := false, 0;
      scroller := Idle;
      header := Header(arrowVisible, progressVisible, None);
    }

    method OnLayout(changed: bool, headerHeight: nat)
      modifies this
      ensures Model() == Gesture.OnLayout(old(Model()), changed, headerHeight)
    {
      if changed && !loadOnce {
        hideHeaderHeight := -(headerHeight as int);
        loadOnce := true;
      }
    }

    method SetRefreshListener(registered: bool)
      modifies this
      ensures Model() == old(Model()).(hasListener := registered)
    {
      hasListener := registered;
    }

    /** The list is only given to the widget, and this listener attached, by the layout set-up. */
    method IsAbleToPull(list: ListTop, rawY: real)
      requires loadOnce
      modifies this
      ensures Model() == Gesture.IsAbleToPull(old(Model()), list, rawY)
    {
      match list {
        case FirstChild(position, top) =>
          if position == 0 && top == 0 {
            if !ableToPull {
              yDown := rawY;
            }
            ableToPull := true;
          } else {
            ableToPull := false;
          }
        case NoChild =>
          ableToPull := true;
      }
    }

    method OnTouch(event: TouchEvent, list: ListTop) returns (consumed: bool)
      requires loadOnce
      modifies this
      ensures TouchResult(Model(), consumed) == Gesture.OnTouch(old(Model()), event, list)
    {
      IsAbleToPull(list, event.rawY);
      if ableToPull {
        match event.action {
          case Down =>
            yDown := event.rawY;
            lastY := event.rawY;
          case Move =>
            if event.rawY - yDown <= 0.0 && scrollY == 0 {
              lastY := event.rawY;
              return false;
            }
            if event.rawY - yDown < touchSlop as real {
              lastY := event.rawY;
              return false;
            }
            if event.rawY - yDown > 0.0 && scrollY <= 0 {
              if scrollY < hideHeaderHeight {
                currentStatus := ReleaseToRefresh;
              } else {
                currentStatus := PullToRefresh;
              }
              scrollY := scrollY + -TruncateToInt(event.rawY - lastY);
            }
            lastY := event.rawY;
          case Up =>
            if currentStatus == PullToRefresh {
              SmoothScrollBy();
            }
            if currentStatus == ReleaseToRefresh {
              currentStatus := Refreshing;
              UpdateHeaderView();
              OnRefresh();
            }
        }
        if currentStatus == PullToRefresh || currentStatus == ReleaseToRefresh {
          UpdateHeaderView();
          lastStatus := currentStatus;
          return true;
        }
      }
      return false;
    }

    method FinishRefresh()
      modifies this
      ensures Model() == Gesture.FinishRefresh(old(Model()))
    {
      currentStatus := RefreshFinished;
      SmoothScrollBy();
    }

    method UpdateHeaderView()
      modifies this
      ensures Model() == Gesture.UpdateHeaderView(old(Model()))
    {
      if lastStatus != currentStatus {
        if currentStatus == PullToRefresh {
          header := header.(arrowVisible := true, progressVisible := false);
          RotateArrow();
        } else if currentStatus == ReleaseToRefresh {
          header := header.(arrowVisible := true, progressVisible := false);
          RotateArrow();
        } else if currentStatus == Refreshing {
          header := header.(progressVisible := true, arrowRotation := None, arrowVisible := false);
        }
      }
    }

    /** Starts the arrow's rotation for the current status; the animation keeps its final angle. */
    method RotateArrow()
      modifies this
      ensures Model() == old(Model()).(header := old(header).(arrowRotation :=
                                         Some(ArrowRotation(old(currentStatus)))))
    {
      var fromDegrees, toDegrees := 0, 0;
      if currentStatus == PullToRefresh {
        fromDegrees, toDegrees := 180, 360;
      } else if currentStatus == ReleaseToRefresh {
        fromDegrees, toDegrees := 0, 180;
      }
      header := header.(arrowRotation := Some(Rotation(fromDegrees, toDegrees)));
    }

    method OnRefresh()
      modifies this
      ensures Model() == Gesture.OnRefresh(old(Model()))
    {
      if hasListener {
        refreshCount := refreshCount + 1;
      }
    }

    method SmoothScrollBy()
      modifies this
      ensures Model() == Gesture.SmoothScrollBy(old(Model()))
    {
      scroller := Scrolling(scrollY, -scrollY, SCROLL_TIME);
    }

    /** The last frame of the closing scroll: the view is scrolled to where the Scroller ends. */
    method ComputeScroll()
      modifies this
      ensures Model() == Gesture.ComputeScroll(old(Model()))
    {
      if scroller.Scrolling? {
        scrollY := scroller.startY + scroller.dy;
        scroller := Idle;
      }
    }
  }
}
