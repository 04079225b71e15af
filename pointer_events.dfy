/**
 * The stateful part of the newest generation (src/PointerEvents.cpp and
 * include/ofx/PointerEvents.h): one `PointerEvents` object per window turns
 * raw mouse and touch callbacks into pointer events, counts taps in a map
 * keyed by (id, button), and keeps the four listener sets of its
 * onPointerDown / Up / Move / Cancel events; a `PointerEventsManager` hands
 * out one `PointerEvents` per window, creating it on first use.
 *
 * Notification is recorded as the sequence of (channel, event) pairs sent;
 * delivering them to listeners is openFrameworks' job and is not modelled.
 * The tap timeout, the clock, the global input state and `std::hash` are
 * parameters of the callbacks.
 */
module PointerEvents {
  import opened Basics
  import opened OfEvents
  import opened HashCombine
  import opened PointerEventArgs

  // ---------------------------------------------------------------------------
  // The tap-count tracker as a function of the map and the event.

  type DownMap = map<PointerEventKey, PointerEventArgs>

  datatype TapResult = TapResult(downs: DownMap, event: PointerEventArgs)

  /** `prev.timestampMillis() + threshold`, a `uint64_t` sum that wraps. */
  function Deadline(prev: PointerEventArgs, tapTimeout: uint64): uint64
  {
    AddUint64(prev.timestamp, tapTimeout)
  }

  /**
   * One call of updateTapCount (src/PointerEvents.cpp:653-682): the new map
   * and the event with its tap count updated.
   */
  function TapStep(downs: DownMap, e: PointerEventArgs, tapTimeout: uint64): (r: TapResult)
    ensures r.event == e.(tapCount := r.event.tapCount)
  {
    var key := EventKey(e);
    if e.eventType == POINTER_DOWN then
      var count := if key in downs && e.timestamp <= Deadline(downs[key], tapTimeout)
                   then AddUint64(e.tapCount, downs[key].tapCount) else e.tapCount;
      var updated := e.(tapCount := count);
      TapResult(downs[key := updated], updated)
    else if key in downs && e.eventType == POINTER_UP then
      TapResult(downs, e.(tapCount := AddUint64(e.tapCount, downs[key].tapCount)))
    else if key in downs && e.timestamp > Deadline(downs[key], tapTimeout) then
      TapResult(downs - {key}, e)
    else
      TapResult(downs, e)
  }

  /**
   * A down adds the stored count exactly when an entry for its key exists
   * and it comes no later than the stored time plus the timeout; the entry
   * is then replaced by the updated event and no other key changes.
   */
  lemma TapStepDown(downs: DownMap, e: PointerEventArgs, tapTimeout: uint64)
    requires e.eventType == POINTER_DOWN
    ensures var r := TapStep(downs, e, tapTimeout);
            var key := EventKey(e);
            && (key in downs && e.timestamp <= Deadline(downs[key], tapTimeout) ==>
                  r.event.tapCount == AddUint64(e.tapCount, downs[key].tapCount))
            && (!(key in downs && e.timestamp <= Deadline(downs[key], tapTimeout)) ==>
                  r.event == e)
            && key in r.downs && r.downs[key] == r.event
            && r.downs.Keys == downs.Keys + {key}
            && (forall k :: k in downs && k != key ==> r.downs[k] == downs[k])
  {
  }

  /**
   * An up with an entry for its key inherits the stored count; with no
   * entry it is unchanged. The map is never modified by an up.
   */
  lemma TapStepUp(downs: DownMap, e: PointerEventArgs, tapTimeout: uint64)
    requires e.eventType == POINTER_UP
    ensures var r := TapStep(downs, e, tapTimeout);
            && r.downs == downs
            && (EventKey(e) in downs ==> r.event.tapCount == AddUint64(e.tapCount, downs[EventKey(e)].tapCount))
            && (EventKey(e) !in downs ==> r.event == e)
  {
  }

  /**
   * Any other event is left unchanged; it erases the entry for its key
   * exactly when that entry exists and the event comes after the stored time
   * plus the timeout, and otherwise leaves the map alone.
   */
  lemma TapStepOther(downs: DownMap, e: PointerEventArgs, tapTimeout: uint64)
    requires e.eventType != POINTER_DOWN && e.eventType != POINTER_UP
    ensures var r := TapStep(downs, e, tapTimeout);
            var key := EventKey(e);
            && r.event == e
            && (key in downs && e.timestamp > Deadline(downs[key], tapTimeout) ==> r.downs == downs - {key})
            && (!(key in downs && e.timestamp > Deadline(downs[key], tapTimeout)) ==> r.downs == downs)
  {
  }

  /** No call of updateTapCount touches the entry of another key. */
  lemma TapStepLocal(downs: DownMap, e: PointerEventArgs, tapTimeout: uint64, k: PointerEventKey)
    requires k != EventKey(e)
    ensures k in TapStep(downs, e, tapTimeout).downs <==> k in downs
    ensures k in downs ==> TapStep(downs, e, tapTimeout).downs[k] == downs[k]
  {
  }

  /** The updated events of a sequence of updateTapCount calls. */
  function ReplayEvents(downs: DownMap, es: seq<PointerEventArgs>, tapTimeout: uint64): (r: seq<PointerEventArgs>)
    ensures |r| == |es|
    decreases |es|
  {
    if |es| == 0 then []
    else
      var s := TapStep(downs, es[0], tapTimeout);
      [s.event] + ReplayEvents(s.downs, es[1..], tapTimeout)
  }

  /**
   * A run of single-tap downs on one key, each no later than the timeout
   * after the one before it (the first measured from the stored entry), with
   * no 64-bit wrap-around.
   */
  predicate TapRun(prev: PointerEventArgs, es: seq<PointerEventArgs>, key: PointerEventKey, tapTimeout: uint64)
  {
    && (forall i :: 0 <= i < |es| ==> es[i].eventType == POINTER_DOWN && EventKey(es[i]) == key && es[i].tapCount == 1)
    && prev.timestamp as int + tapTimeout as int < TWO_64
    && (forall i :: 0 <= i < |es| ==> es[i].timestamp as int + tapTimeout as int < TWO_64)
    && (|es| > 0 ==> es[0].timestamp as int <= prev.timestamp as int + tapTimeout as int)
    && (forall i :: 0 < i < |es| ==> es[i].timestamp as int <= es[i - 1].timestamp as int + tapTimeout as int)
  }

  /**
   * The first tap of a tap run adds one to the stored count, becomes the
   * entry for its key, and leaves a tap run measured from itself.
   */
  lemma TapRunFirstStep(downs: DownMap, es: seq<PointerEventArgs>, key: PointerEventKey,
                        tapTimeout: uint64, n: nat)
    requires key in downs && downs[key].tapCount as int == n
    requires TapRun(downs[key], es, key, tapTimeout)
    requires |es| > 0 && n + 1 < TWO_64
    ensures TapStep(downs, es[0], tapTimeout).event.tapCount as int == n + 1
    ensures key in TapStep(downs, es[0], tapTimeout).downs
    ensures TapStep(downs, es[0], tapTimeout).downs[key] == TapStep(downs, es[0], tapTimeout).event
    ensures TapRun(TapStep(downs, es[0], tapTimeout).downs[key], es[1..], key, tapTimeout)
  {
    var s := TapStep(downs, es[0], tapTimeout);
    assert es[0].timestamp <= Deadline(downs[key], tapTimeout);
    assert s.event == es[0].(tapCount := s.event.tapCount);
    var rest := es[1..];
    assert forall i :: 0 < i < |rest| ==> rest[i] == es[i + 1] && rest[i - 1] == es[i];
  }

  /**
   * Repeated taps count up: after an entry with count n, the i-th tap of a
   * tap run gets count n + i + 1.
   */
  lemma {:induction false} TapRunCounts(downs: DownMap, es: seq<PointerEventArgs>, key: PointerEventKey,
                                        tapTimeout: uint64, n: nat)
    requires key in downs && downs[key].tapCount as int == n
    requires TapRun(downs[key], es, key, tapTimeout)
    requires n + |es| < TWO_64
    ensures forall i :: 0 <= i < |es| ==> ReplayEvents(downs, es, tapTimeout)[i].tapCount as int == n + i + 1
    decreases |es|
  {
    if |es| > 0 {
      TapRunFirstStep(downs, es, key, tapTimeout, n);
      var s := TapStep(downs, es[0], tapTimeout);
      var tail := ReplayEvents(s.downs, es[1..], tapTimeout);
      TapRunCounts(s.downs, es[1..], key, tapTimeout, n + 1);
      var r := ReplayEvents(downs, es, tapTimeout);
      assert r == [s.event] + tail;
      forall i | 0 <= i < |es|
        ensures r[i].tapCount as int == n + i + 1
      {
        if i > 0 {
          assert r[i] == tail[i - 1];
        }
      }
    }
  }

  /**
   * Starting from a key with no entry, a first single tap followed by a tap
   * run counts 1, 2, 3, ...
   */
  lemma {:induction false} TapsFromScratch(downs: DownMap, first: PointerEventArgs, es: seq<PointerEventArgs>,
                                           tapTimeout: uint64)
    requires first.eventType == POINTER_DOWN && first.tapCount == 1 && EventKey(first) !in downs
    requires TapRun(first, es, EventKey(first), tapTimeout)
    requires 1 + |es| < TWO_64
    ensures forall i :: 0 <= i < |es| + 1 ==> ReplayEvents(downs, [first] + es, tapTimeout)[i].tapCount as int == i + 1
  {
    var key := EventKey(first);
    var s := TapStep(downs, first, tapTimeout);
    assert s.event == first && s.downs[key] == first;
    TapRunCounts(s.downs, es, key, tapTimeout, 1);
    var all := [first] + es;
    assert all[0] == first && all[1..] == es;
    var r := ReplayEvents(downs, all, tapTimeout);
    assert r == [first] + ReplayEvents(s.downs, es, tapTimeout);
    forall i | 0 <= i < |all|
      ensures r[i].tapCount as int == i + 1
    {
      if i > 0 {
        assert r[i] == ReplayEvents(s.downs, es, tapTimeout)[i - 1];
      }
    }
  }

  /**
   * A double click: a mouse press, its release and a second press of the
   * same button within the timeout of the first press. The release inherits
   * count 1 and the second press gets count 2.
   */
  lemma DoubleClick(h: Hashers, downs: DownMap, press1: MouseEvent, release: MouseEvent, press2: MouseEvent,
                    input: InputState, t0: uint64, t1: uint64, t2: uint64, tapTimeout: uint64, w: Window)
    requires press1.kind == Pressed && release.kind == Released && press2.kind == Pressed
    requires press1.button == release.button == press2.button
    requires EventKey(FromMouse(h, press1, input, t0, w)) !in downs
    requires t2 as int <= t0 as int + tapTimeout as int < TWO_64
    ensures var out := ReplayEvents(downs, [FromMouse(h, press1, input, t0, w), FromMouse(h, release, input, t1, w),
                                            FromMouse(h, press2, input, t2, w)], tapTimeout);
            out[0].tapCount == 1 && out[1].tapCount == 1 && out[2].tapCount == 2
  {
    var a := FromMouse(h, press1, input, t0, w);
    var b := FromMouse(h, release, input, t1, w);
    var c := FromMouse(h, press2, input, t2, w);
    MouseEventsShareKey(h, press1, release, input, input, t0, t1, w, w);
    MouseEventsShareKey(h, press1, press2, input, input, t0, t2, w, w);
    var s1 := TapStep(downs, a, tapTimeout);
    var s2 := TapStep(s1.downs, b, tapTimeout);
    var s3 := TapStep(s2.downs, c, tapTimeout);
    assert s1.event == a && s1.downs[EventKey(a)] == a;
    assert s2.downs == s1.downs && s2.event.tapCount == 1;
    assert s3.event.tapCount == 2;
    var es := [a, b, c];
    assert es[1..] == [b, c] && [b, c][1..] == [c];
    assert ReplayEvents(s2.downs, [c], tapTimeout) == [s3.event] + ReplayEvents(s3.downs, [], tapTimeout);
    assert ReplayEvents(s1.downs, [b, c], tapTimeout) == [s2.event] + ReplayEvents(s2.downs, [c], tapTimeout);
    assert ReplayEvents(downs, es, tapTimeout) == [s1.event] + ReplayEvents(s1.downs, [b, c], tapTimeout);
  }

  // ---------------------------------------------------------------------------
  // Listeners and notifications.

  /** A listener object, by identity. */
  type Listener = nat

  /** One listener added to one ofEvent at one priority. */
  datatype Registration = Registration(listener: Listener, priority: int)

  /** The four ofEvent members. */
  datatype Channel = PointerDown | PointerUp | PointerMove | PointerCancel

  datatype Notification = Notification(channel: Channel, args: PointerEventArgs)

  class PointerEvents {
    /** The window whose events this object converts (null for the main window). */
    const source: Window
    var consumeMouseEvents: bool
    var consumeTouchEvents: bool
    var pointerDownEventTimeMap: DownMap
    var onPointerDown: set<Registration>
    var onPointerUp: set<Registration>
    var onPointerMove: set<Registration>
    var onPointerCancel: set<Registration>
    /** Every ofNotifyEvent this object has made, oldest first. */
    var notifications: seq<Notification>

    /** PointerEvents(source); PointerEvents() is PointerEvents(nullptr). */
    constructor(source: Window := NullWindow)
      ensures this.source == source
      ensures !consumeMouseEvents && !consumeTouchEvents
      ensures pointerDownEventTimeMap == map[]
      ensures onPointerDown == {} && onPointerUp == {} && onPointerMove == {} && onPointerCancel == {}
      ensures notifications == []
    {
      this.source := source;
      consumeMouseEvents := false;
      consumeTouchEvents := false;
      pointerDownEventTimeMap := map[];
      onPointerDown := {};
      onPointerUp := {};
      onPointerMove := {};
      onPointerCancel := {};
      notifications := [];
    }

    /** The state a new PointerEvents(window) is in, apart from its listener sets. */
    predicate InitialState(window: Window)
      reads this
    {
      source == window && !consumeMouseEvents && !consumeTouchEvents
      && pointerDownEventTimeMap == map[] && notifications == []
    }

    /** The listener is on all four channels at this priority. */
    predicate RegisteredOnAll(reg: Registration)
      reads this
    {
      reg in onPointerDown && reg in onPointerUp && reg in onPointerMove && reg in onPointerCancel
    }

    /** The listener is on none of the four channels at this priority. */
    predicate RegisteredOnNone(reg: Registration)
      reads this
    {
      reg !in onPointerDown && reg !in onPointerUp && reg !in onPointerMove && reg !in onPointerCancel
    }

    method SetConsumeMouseEvents(consume: bool)
      modifies this`consumeMouseEvents
      ensures consumeMouseEvents == consume
    {
      consumeMouseEvents := consume;
    }

    method SetConsumeTouchEvents(consume: bool)
      modifies this`consumeTouchEvents
      ensures consumeTouchEvents == consume
    {
      consumeTouchEvents := consume;
    }

    /** registerPointerEvents(listener, prio): ofAddListener on each of the four events. */
    method RegisterPointerEvents(listener: Listener, prio: int := OF_EVENT_ORDER_AFTER_APP)
      modifies this`onPointerDown, this`onPointerUp, this`onPointerMove, this`onPointerCancel
      ensures onPointerDown == old(onPointerDown) + {Registration(listener, prio)}
      ensures onPointerUp == old(onPointerUp) + {Registration(listener, prio)}
      ensures onPointerMove == old(onPointerMove) + {Registration(listener, prio)}
      ensures onPointerCancel == old(onPointerCancel) + {Registration(listener, prio)}
      ensures RegisteredOnAll(Registration(listener, prio))
    {
      var reg := Registration(listener, prio);
      onPointerDown := onPointerDown + {reg};
      onPointerUp := onPointerUp + {reg};
      onPointerMove := onPointerMove + {reg};
      onPointerCancel := onPointerCancel + {reg};
    }

    /** unregisterPointerEvents(listener, prio): ofRemoveListener on each of the four events. */
    method UnregisterPointerEvents(listener: Listener, prio: int := OF_EVENT_ORDER_AFTER_APP)
      modifies this`onPointerDown, this`onPointerUp, this`onPointerMove, this`onPointerCancel
      ensures onPointerDown == old(onPointerDown) - {Registration(listener, prio)}
      ensures onPointerUp == old(onPointerUp) - {Registration(listener, prio)}
      ensures onPointerMove == old(onPointerMove) - {Registration(listener, prio)}
      ensures onPointerCancel == old(onPointerCancel) - {Registration(listener, prio)}
      ensures RegisteredOnNone(Registration(listener, prio))
    {
      var reg := Registration(listener, prio);
      onPointerDown := onPointerDown - {reg};
      onPointerUp := onPointerUp - {reg};
      onPointerMove := onPointerMove - {reg};
      onPointerCancel := onPointerCancel - {reg};
    }

    /** updateTapCount(e), which updates `e` in place: the updated event is returned. */
    method UpdateTapCount(e: PointerEventArgs, tapTimeout: uint64) returns (updated: PointerEventArgs)
      modifies this`pointerDownEventTimeMap
      ensures TapResult(pointerDownEventTimeMap, updated) == TapStep(old(pointerDownEventTimeMap), e, tapTimeout)
    {
      var key := EventKey(e);
      updated := e;
      if e.eventType == POINTER_DOWN {
        if key in pointerDownEventTimeMap {
          var prev := pointerDownEventTimeMap[key];
          if e.timestamp <= AddUint64(prev.timestamp, tapTimeout) {
            updated := updated.(tapCount := AddUint64(updated.tapCount, prev.tapCount));
          }
        }
        pointerDownEventTimeMap := pointerDownEventTimeMap[key := updated];
      } else if key in pointerDownEventTimeMap && e.eventType == POINTER_UP {
        updated := updated.(tapCount := AddUint64(updated.tapCount, pointerDownEventTimeMap[key].tapCount));
      } else if key in pointerDownEventTimeMap
                && e.timestamp > AddUint64(pointerDownEventTimeMap[key].timestamp, tapTimeout) {
        pointerDownEventTimeMap := pointerDownEventTimeMap - {key};
      }
    }

    method Notify(channel: Channel, args: PointerEventArgs)
      modifies this`notifications
      ensures notifications == old(notifications) + [Notification(channel, args)]
    {
      notifications := notifications + [Notification(channel, args)];
    }

    /** mouseMoved: a move notification; the tap map is not consulted. */
    method MouseMoved(h: Hashers, e: MouseEvent, input: InputState, now: uint64) returns (consumed: bool)
      modifies this`notifications
      ensures notifications == old(notifications) + [Notification(PointerMove, FromMouse(h, e, input, now, source))]
      ensures consumed == consumeMouseEvents
    {
      var p := FromMouse(h, e, input, now, source);
      Notify(PointerMove, p);
      consumed := consumeMouseEvents;
    }

    /** mouseDragged: a move notification; the tap map is not consulted. */
    method MouseDragged(h: Hashers, e: MouseEvent, input: InputState, now: uint64) returns (consumed: bool)
      modifies this`notifications
      ensures notifications == old(notifications) + [Notification(PointerMove, FromMouse(h, e, input, now, source))]
      ensures consumed == consumeMouseEvents
    {
      var p := FromMouse(h, e, input, now, source);
      Notify(PointerMove, p);
      consumed := consumeMouseEvents;
    }

    /** mousePressed: tap counting, then a down notification of the counted event. */
    method MousePressed(h: Hashers, e: MouseEvent, input: InputState, now: uint64, tapTimeout: uint64)
      returns (consumed: bool)
      modifies this`pointerDownEventTimeMap, this`notifications
      ensures var s := TapStep(old(pointerDownEventTimeMap), FromMouse(h, e, input, now, source), tapTimeout);
              pointerDownEventTimeMap == s.downs
              && notifications == old(notifications) + [Notification(PointerDown, s.event)]
      ensures consumed == consumeMouseEvents
    {
      var p := FromMouse(h, e, input, now, source);
      p := UpdateTapCount(p, tapTimeout);
      Notify(PointerDown, p);
      consumed := consumeMouseEvents;
    }

    /** mouseReleased: tap counting, then an up notification of the counted event. */
    method MouseReleased(h: Hashers, e: MouseEvent, input: InputState, now: uint64, tapTimeout: uint64)
      returns (consumed: bool)
      modifies this`pointerDownEventTimeMap, this`notifications
      ensures var s := TapStep(old(pointerDownEventTimeMap), FromMouse(h, e, input, now, source), tapTimeout);
              pointerDownEventTimeMap == s.downs
              && notifications == old(notifications) + [Notification(PointerUp, s.event)]
      ensures consumed == consumeMouseEvents
    {
      var p := FromMouse(h, e, input, now, source);
      p := UpdateTapCount(p, tapTimeout);
      Notify(PointerUp, p);
      consumed := consumeMouseEvents;
    }

    /** touchDown: tap counting, then a down notification. */
    method TouchDown(h: Hashers, e: TouchEvent, input: InputState, now: uint64, tapTimeout: uint64)
      returns (consumed: bool)
      modifies this`pointerDownEventTimeMap, this`notifications
      ensures var s := TapStep(old(pointerDownEventTimeMap), FromTouch(h, e, input, now, source), tapTimeout);
              pointerDownEventTimeMap == s.downs
              && notifications == old(notifications) + [Notification(PointerDown, s.event)]
      ensures consumed == consumeTouchEvents
    {
      var p := FromTouch(h, e, input, now, source);
      p := UpdateTapCount(p, tapTimeout);
      Notify(PointerDown, p);
      consumed := consumeTouchEvents;
    }

    /** touchMoved: a move notification, without tap counting. */
    method TouchMoved(h: Hashers, e: TouchEvent, input: InputState, now: uint64) returns (consumed: bool)
      modifies this`notifications
      ensures notifications == old(notifications) + [Notification(PointerMove, FromTouch(h, e, input, now, source))]
      ensures consumed == consumeTouchEvents
    {
      var p := FromTouch(h, e, input, now, source);
      Notify(PointerMove, p);
      consumed := consumeTouchEvents;
    }

    /** touchUp: tap counting, then an up notification. */
    method TouchUp(h: Hashers, e: TouchEvent, input: InputState, now: uint64, tapTimeout: uint64)
      returns (consumed: bool)
      modifies this`pointerDownEventTimeMap, this`notifications
      ensures var s := TapStep(old(pointerDownEventTimeMap), FromTouch(h, e, input, now, source), tapTimeout);
              pointerDownEventTimeMap == s.downs
              && notifications == old(notifications) + [Notification(PointerUp, s.event)]
      ensures consumed == consumeTouchEvents
    {
      var p := FromTouch(h, e, input, now, source);
      p := UpdateTapCount(p, tapTimeout);
      Notify(PointerUp, p);
      consumed := consumeTouchEvents;
    }

    /** touchDoubleTap: skipped (taps are counted instead); only the consume flag is returned. */
    method TouchDoubleTap(e: TouchEvent) returns (consumed: bool)
      ensures consumed == consumeTouchEvents
    {
      consumed := consumeTouchEvents;
    }

    /** touchCancelled: tap counting (which may expire the entry), then a cancel notification. */
    method TouchCancelled(h: Hashers, e: TouchEvent, input: InputState, now: uint64, tapTimeout: uint64)
      returns (consumed: bool)
      modifies this`pointerDownEventTimeMap, this`notifications
      ensures var s := TapStep(old(pointerDownEventTimeMap), FromTouch(h, e, input, now, source), tapTimeout);
              pointerDownEventTimeMap == s.downs
              && notifications == old(notifications) + [Notification(PointerCancel, s.event)]
      ensures consumed == consumeTouchEvents
    {
      var p := FromTouch(h, e, input, now, source);
      p := UpdateTapCount(p, tapTimeout);
      Notify(PointerCancel, p);
      consumed := consumeTouchEvents;
    }
  }

  // ---------------------------------------------------------------------------
  // The window registry.

  class PointerEventsManager {
    var windowEventMap: map<Window, PointerEvents>

    constructor()
      ensures windowEventMap == map[]
    {
      windowEventMap := map[];
    }

    /**
     * eventsForWindow(window): the existing object for the window, or a new
     * PointerEvents(window) stored under it. The result is never null.
     */
    method EventsForWindow(window: Window) returns (r: PointerEvents?)
      modifies this
      ensures r != null
      ensures window in old(windowEventMap) ==> r == old(windowEventMap)[window] && windowEventMap == old(windowEventMap)
      ensures window !in old(windowEventMap) ==>
                fresh(r) && windowEventMap == old(windowEventMap)[window := r] && r.source == window
                && !r.consumeMouseEvents && !r.consumeTouchEvents && r.pointerDownEventTimeMap == map[]
                && r.onPointerDown == {} && r.onPointerUp == {} && r.onPointerMove == {} && r.onPointerCancel == {}
                && r.notifications == []
      ensures window in windowEventMap && windowEventMap[window] == r
      ensures windowEventMap.Keys == old(windowEventMap.Keys) + {window}
    {
      if window in windowEventMap {
        r := windowEventMap[window];
      } else {
        var created := new PointerEvents(window);
        windowEventMap := windowEventMap[window := created];
        r := windowEventMap[window];
      }
    }

    /** events() is eventsForWindow(nullptr). */
    method Events() returns (r: PointerEvents?)
      modifies this
      ensures r != null
      ensures NullWindow in old(windowEventMap) ==> r == old(windowEventMap)[NullWindow] && windowEventMap == old(windowEventMap)
      ensures NullWindow !in old(windowEventMap) ==>
                fresh(r) && windowEventMap == old(windowEventMap)[NullWindow := r] && r.InitialState(NullWindow)
                && r.onPointerDown == {} && r.onPointerUp == {} && r.onPointerMove == {} && r.onPointerCancel == {}
      ensures NullWindow in windowEventMap && windowEventMap[NullWindow] == r
      ensures windowEventMap.Keys == old(windowEventMap.Keys) + {NullWindow}
    {
      r := EventsForWindow(NullWindow);
    }
  }

  /** A second eventsForWindow with the same window returns the same object and adds no key. */
  method EventsForWindowIdempotent(manager: PointerEventsManager, window: Window)
    returns (first: PointerEvents?, second: PointerEvents?)
    modifies manager
    ensures first == second && first != null
    ensures manager.windowEventMap.Keys == old(manager.windowEventMap.Keys) + {window}
  {
    first := manager.EventsForWindow(window);
    var keys := manager.windowEventMap.Keys;
    second := manager.EventsForWindow(window);
    assert manager.windowEventMap.Keys == keys;
  }

  /**
   * RegisterPointerEventsForWindow(window, listener, prio)
   * (include/ofx/PointerEvents.h:741-754): the window's object, created if
   * need be, gets the listener on its four channels. The lookup never
   * returns null, so the error branch is never taken.
   */
  method RegisterPointerEventsForWindow(manager: PointerEventsManager, window: Window, listener: Listener,
                                        prio: int := OF_EVENT_ORDER_AFTER_APP)
    returns (events: PointerEvents?)
    modifies manager, manager.windowEventMap.Values
    ensures events != null && window in manager.windowEventMap && manager.windowEventMap[window] == events
    ensures manager.windowEventMap == old(manager.windowEventMap)[window := events]
    ensures window in old(manager.windowEventMap) ==> events == old(manager.windowEventMap[window])
    ensures window in old(manager.windowEventMap) ==>
              events.onPointerDown == old(manager.windowEventMap[window].onPointerDown) + {Registration(listener, prio)}
              && events.onPointerUp == old(manager.windowEventMap[window].onPointerUp) + {Registration(listener, prio)}
              && events.onPointerMove == old(manager.windowEventMap[window].onPointerMove) + {Registration(listener, prio)}
              && events.onPointerCancel == old(manager.windowEventMap[window].onPointerCancel) + {Registration(listener, prio)}
    ensures window in old(manager.windowEventMap) ==>
              events.consumeMouseEvents == old(manager.windowEventMap[window].consumeMouseEvents)
              && events.consumeTouchEvents == old(manager.windowEventMap[window].consumeTouchEvents)
              && events.pointerDownEventTimeMap == old(manager.windowEventMap[window].pointerDownEventTimeMap)
              && events.notifications == old(manager.windowEventMap[window].notifications)
    ensures window !in old(manager.windowEventMap) ==>
              fresh(events) && events.InitialState(window)
              && events.onPointerDown == {Registration(listener, prio)} && events.onPointerUp == {Registration(listener, prio)}
              && events.onPointerMove == {Registration(listener, prio)} && events.onPointerCancel == {Registration(listener, prio)}
    ensures events.RegisteredOnAll(Registration(listener, prio))
    ensures forall p :: p in old(manager.windowEventMap.Values) && p != events ==> unchanged(p)
  {
    events := manager.EventsForWindow(window);
    if events != null {
      events.RegisterPointerEvents(listener, prio);
    }
  }

  /**
   * UnregisterPointerEventsForWindow(window, listener)
   * (include/ofx/PointerEvents.h:757-770): it takes no priority and always
   * removes the registration at the default priority.
   */
  method UnregisterPointerEventsForWindow(manager: PointerEventsManager, window: Window, listener: Listener)
    returns (events: PointerEvents?)
    modifies manager, manager.windowEventMap.Values
    ensures events != null && window in manager.windowEventMap && manager.windowEventMap[window] == events
    ensures manager.windowEventMap == old(manager.windowEventMap)[window := events]
    ensures window in old(manager.windowEventMap) ==> events == old(manager.windowEventMap[window])
    ensures window in old(manager.windowEventMap) ==>
              var reg := Registration(listener, OF_EVENT_ORDER_AFTER_APP);
              events.onPointerDown == old(manager.windowEventMap[window].onPointerDown) - {reg}
              && events.onPointerUp == old(manager.windowEventMap[window].onPointerUp) - {reg}
              && events.onPointerMove == old(manager.windowEventMap[window].onPointerMove) - {reg}
              && events.onPointerCancel == old(manager.windowEventMap[window].onPointerCancel) - {reg}
    ensures window in old(manager.windowEventMap) ==>
              events.consumeMouseEvents == old(manager.windowEventMap[window].consumeMouseEvents)
              && events.consumeTouchEvents == old(manager.windowEventMap[window].consumeTouchEvents)
              && events.pointerDownEventTimeMap == old(manager.windowEventMap[window].pointerDownEventTimeMap)
              && events.notifications == old(manager.windowEventMap[window].notifications)
    ensures window !in old(manager.windowEventMap) ==>
              fresh(events) && events.InitialState(window)
              && events.onPointerDown == {} && events.onPointerUp == {}
              && events.onPointerMove == {} && events.onPointerCancel == {}
    ensures events.RegisteredOnNone(Registration(listener, OF_EVENT_ORDER_AFTER_APP))
    ensures forall p :: p in old(manager.windowEventMap.Values) && p != events ==> unchanged(p)
  {
    events := manager.EventsForWindow(window);
    if events != null {
      events.UnregisterPointerEvents(listener);
    }
  }

  /** RegisterPointerEvents(listener, prio) is RegisterPointerEventsForWindow(nullptr, listener, prio). */
  method RegisterPointerEvents(manager: PointerEventsManager, listener: Listener, prio: int := OF_EVENT_ORDER_AFTER_APP)
    returns (events: PointerEvents?)
    modifies manager, manager.windowEventMap.Values
    ensures events != null && NullWindow in manager.windowEventMap && manager.windowEventMap[NullWindow] == events
    ensures manager.windowEventMap == old(manager.windowEventMap)[NullWindow := events]
    ensures NullWindow in old(manager.windowEventMap) ==> events == old(manager.windowEventMap[NullWindow])
    ensures NullWindow in old(manager.windowEventMap) ==>
              events.onPointerDown == old(manager.windowEventMap[NullWindow].onPointerDown) + {Registration(listener, prio)}
              && events.onPointerUp == old(manager.windowEventMap[NullWindow].onPointerUp) + {Registration(listener, prio)}
              && events.onPointerMove == old(manager.windowEventMap[NullWindow].onPointerMove) + {Registration(listener, prio)}
              && events.onPointerCancel == old(manager.windowEventMap[NullWindow].onPointerCancel) + {Registration(listener, prio)}
    ensures NullWindow in old(manager.windowEventMap) ==>
              events.consumeMouseEvents == old(manager.windowEventMap[NullWindow].consumeMouseEvents)
              && events.consumeTouchEvents == old(manager.windowEventMap[NullWindow].consumeTouchEvents)
              && events.pointerDownEventTimeMap == old(manager.windowEventMap[NullWindow].pointerDownEventTimeMap)
              && events.notifications == old(manager.windowEventMap[NullWindow].notifications)
    ensures NullWindow !in old(manager.windowEventMap) ==>
              fresh(events) && events.InitialState(NullWindow)
              && events.onPointerDown == {Registration(listener, prio)} && events.onPointerUp == {Registration(listener, prio)}
              && events.onPointerMove == {Registration(listener, prio)} && events.onPointerCancel == {Registration(listener, prio)}
    ensures events.RegisteredOnAll(Registration(listener, prio))
    ensures forall p :: p in old(manager.windowEventMap.Values) && p != events ==> unchanged(p)
  {
    events := RegisterPointerEventsForWindow(manager, NullWindow, listener, prio);
  }

  /** UnregisterPointerEvents(listener) is UnregisterPointerEventsForWindow(nullptr, listener). */
  method UnregisterPointerEvents(manager: PointerEventsManager, listener: Listener)
    returns (events: PointerEvents?)
    modifies manager, manager.windowEventMap.Values
    ensures events != null && NullWindow in manager.windowEventMap && manager.windowEventMap[NullWindow] == events
    ensures manager.windowEventMap == old(manager.windowEventMap)[NullWindow := events]
    ensures NullWindow in old(manager.windowEventMap) ==> events == old(manager.windowEventMap[NullWindow])
    ensures NullWindow in old(manager.windowEventMap) ==>
              var reg := Registration(listener, OF_EVENT_ORDER_AFTER_APP);
              events.onPointerDown == old(manager.windowEventMap[NullWindow].onPointerDown) - {reg}
              && events.onPointerUp == old(manager.windowEventMap[NullWindow].onPointerUp) - {reg}
              && events.onPointerMove == old(manager.windowEventMap[NullWindow].onPointerMove) - {reg}
              && events.onPointerCancel == old(manager.windowEventMap[NullWindow].onPointerCancel) - {reg}
    ensures NullWindow in old(manager.windowEventMap) ==>
              events.consumeMouseEvents == old(manager.windowEventMap[NullWindow].consumeMouseEvents)
              && events.consumeTouchEvents == old(manager.windowEventMap[NullWindow].consumeTouchEvents)
              && events.pointerDownEventTimeMap == old(manager.windowEventMap[NullWindow].pointerDownEventTimeMap)
              && events.notifications == old(manager.windowEventMap[NullWindow].notifications)
    ensures NullWindow !in old(manager.windowEventMap) ==>
              fresh(events) && events.InitialState(NullWindow)
              && events.onPointerDown == {} && events.onPointerUp == {}
              && events.onPointerMove == {} && events.onPointerCancel == {}
    ensures events.RegisteredOnNone(Registration(listener, OF_EVENT_ORDER_AFTER_APP))
    ensures forall p :: p in old(manager.windowEventMap.Values) && p != events ==> unchanged(p)
  {
    events := UnregisterPointerEventsForWindow(manager, NullWindow, listener);
  }

  /**
   * Registering at a priority other than the default and then unregistering
   * through the window helper leaves the listener registered on all four
   * channels.
   */
  method UnregisterIgnoresPriority(manager: PointerEventsManager, window: Window, listener: Listener, prio: int)
    returns (events: PointerEvents?)
    requires prio != OF_EVENT_ORDER_AFTER_APP
    modifies manager, manager.windowEventMap.Values
    ensures events != null && events.RegisteredOnAll(Registration(listener, prio))
  {
    var registered := RegisterPointerEventsForWindow(manager, window, listener, prio);
    events := UnregisterPointerEventsForWindow(manager, window, listener);
    assert events == registered;
  }
}
