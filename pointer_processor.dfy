/**
 * The processors of the JSON generation (src/Pointer.cpp): the default
 * pointer-event processor routes raw mouse and touch callbacks to the
 * global pointer events, and the default gesture processor remembers the
 * last pointer-down event of every (device, pointer, button).
 *
 * The global event objects `PointerEvents()` and `PointerGestureEvents()`
 * are singletons; here each processor records the (channel, event) pairs it
 * sends, in order.
 */
module PointerProcessor {
  import opened Basics
  import opened OfEvents
  import opened PointerEvent

  /** The four pointer events and the double-press gesture event. */
  datatype Channel = PointerDown | PointerUp | PointerMove | PointerCancel | PointerDoublePress

  datatype Notification = Notification(channel: Channel, event: PointerEvent)

  /** `PointerDownEventKey`: (device id, pointer id, button). */
  type PointerDownEventKey = (int64, int64, uint64)

  const DEFAULT_TAP_DELAY: uint64 := 500

  class DefaultGestureEventProcessor {
    var tapThreshold: uint64
    var pointerDownEvents: map<PointerDownEventKey, PointerEvent>

    /** The constructor's registration with the global pointer events is not modelled. */
    constructor()
      ensures tapThreshold == DEFAULT_TAP_DELAY
      ensures pointerDownEvents == map[]
    {
      tapThreshold := DEFAULT_TAP_DELAY;
      pointerDownEvents := map[];
    }

    /**
     * handlePointerDown(evt): the tap count stays 1 because the
     * accumulation is commented out, the event is copied field by field
     * and stored under its key. The branch that would notify
     * onPointerDoublePress needs a tap count of 2 and is unreachable.
     */
    method HandlePointerDown(evt: PointerEvent)
      modifies this`pointerDownEvents
      ensures pointerDownEvents == old(pointerDownEvents)[(evt.deviceID, evt.pointerID, evt.button) := evt]
    {
      var p := evt;
      var key := (p.deviceID, p.pointerID, p.button);
      var tapCount: uint64 := 1;
      if key in pointerDownEvents {
        var lastEvent := pointerDownEvents[key];
        if p.timestamp as int <= lastEvent.timestamp as int + tapThreshold as int {
          // The tap count accumulation is disabled in this version.
        }
      }
      p := PointerEvent(p.eventType, p.point, p.deviceID, p.pointerID, p.deviceType, p.isPrimary,
                        p.button, p.buttons, p.modifiers, p.timestamp);
      pointerDownEvents := pointerDownEvents[key := p];
      if 2 == tapCount {
        assert false;
      }
    }

    method OnPointerUp(evt: PointerEvent) returns (handled: bool)
      ensures !handled
    {
      handled := false;
    }

    /** onPointerDown(evt): handlePointerDown, then not handled. */
    method OnPointerDown(evt: PointerEvent) returns (handled: bool)
      modifies this`pointerDownEvents
      ensures pointerDownEvents == old(pointerDownEvents)[(evt.deviceID, evt.pointerID, evt.button) := evt]
      ensures !handled
    {
      HandlePointerDown(evt);
      handled := false;
    }

    method OnPointerMove(evt: PointerEvent) returns (handled: bool)
      ensures !handled
    {
      handled := false;
    }

    method OnPointerCancel(evt: PointerEvent) returns (handled: bool)
      ensures !handled
    {
      handled := false;
    }
  }

  /**
   * Storing a pointer-down changes only the entry of its own key, and the
   * stored event is the incoming one.
   */
  method HandlePointerDownIsLocal(g: DefaultGestureEventProcessor, evt: PointerEvent, other: PointerDownEventKey)
    requires other != (evt.deviceID, evt.pointerID, evt.button)
    modifies g
    ensures (evt.deviceID, evt.pointerID, evt.button) in g.pointerDownEvents
    ensures g.pointerDownEvents[(evt.deviceID, evt.pointerID, evt.button)] == evt
    ensures other in g.pointerDownEvents <==> other in old(g.pointerDownEvents)
    ensures other in old(g.pointerDownEvents) ==> g.pointerDownEvents[other] == old(g.pointerDownEvents[other])
  {
    g.HandlePointerDown(evt);
  }

  class DefaultPointerEventProcessor {
    var consumeMouseEvents: bool
    var consumeTouchEvents: bool
    /** Every ofNotifyEvent this processor has made, oldest first. */
    var notifications: seq<Notification>

    /** The constructor's listener registrations with ofEvents() are not modelled. */
    constructor()
      ensures !consumeMouseEvents && !consumeTouchEvents && notifications == []
    {
      consumeMouseEvents := false;
      consumeTouchEvents := false;
      notifications := [];
    }

    method SetConsumeMouseEvents(consume: bool)
      modifies this`consumeMouseEvents
      ensures consumeMouseEvents == consume
    {
      consumeMouseEvents := consume;
    }

    method SetConsumeTouchEvents(consume: bool)
      modifies this`consumeTouchEvents
      ensures consumeTouchEvents == consume
    {
      consumeTouchEvents := consume;
    }

    method Send(channel: Channel, event: PointerEvent)
      modifies this`notifications
      ensures notifications == old(notifications) + [Notification(channel, event)]
    {
      notifications := notifications + [Notification(channel, event)];
    }

    method MouseMoved(e: MouseEvent, input: InputState, now: uint64) returns (consumed: bool)
      modifies this`notifications
      ensures notifications == old(notifications) + [Notification(PointerMove, FromMouse(e, input, now))]
      ensures consumed == consumeMouseEvents
    {
      Send(PointerMove, FromMouse(e, input, now));
      consumed := consumeMouseEvents;
    }

    method MouseDragged(e: MouseEvent, input: InputState, now: uint64) returns (consumed: bool)
      modifies this`notifications
      ensures notifications == old(notifications) + [Notification(PointerMove, FromMouse(e, input, now))]
      ensures consumed == consumeMouseEvents
    {
      Send(PointerMove, FromMouse(e, input, now));
      consumed := consumeMouseEvents;
    }

    method MousePressed(e: MouseEvent, input: InputState, now: uint64) returns (consumed: bool)
      modifies this`notifications
      ensures notifications == old(notifications) + [Notification(PointerDown, FromMouse(e, input, now))]
      ensures consumed == consumeMouseEvents
    {
      Send(PointerDown, FromMouse(e, input, now));
      consumed := consumeMouseEvents;
    }

    method MouseReleased(e: MouseEvent, input: InputState, now: uint64) returns (consumed: bool)
      modifies this`notifications
      ensures notifications == old(notifications) + [Notification(PointerUp, FromMouse(e, input, now))]
      ensures consumed == consumeMouseEvents
    {
      Send(PointerUp, FromMouse(e, input, now));
      consumed := consumeMouseEvents;
    }

    method TouchDown(e: TouchEvent, input: InputState, now: uint64) returns (consumed: bool)
      modifies this`notifications
      ensures notifications == old(notifications) + [Notification(PointerDown, FromTouch(e, input, now))]
      ensures consumed == consumeTouchEvents
    {
      Send(PointerDown, FromTouch(e, input, now));
      consumed := consumeTouchEvents;
    }

    method TouchMoved(e: TouchEvent, input: InputState, now: uint64) returns (consumed: bool)
      modifies this`notifications
      ensures notifications == old(notifications) + [Notification(PointerMove, FromTouch(e, input, now))]
      ensures consumed == consumeTouchEvents
    {
      Send(PointerMove, FromTouch(e, input, now));
      consumed := consumeTouchEvents;
    }

    method TouchUp(e: TouchEvent, input: InputState, now: uint64) returns (consumed: bool)
      modifies this`notifications
      ensures notifications == old(notifications) + [Notification(PointerUp, FromTouch(e, input, now))]
      ensures consumed == consumeTouchEvents
    {
      Send(PointerUp, FromTouch(e, input, now));
      consumed := consumeTouchEvents;
    }

    /** touchDoubleTap goes to the gesture events' onPointerDoublePress, as a "down" event. */
    method TouchDoubleTap(e: TouchEvent, input: InputState, now: uint64) returns (consumed: bool)
      modifies this`notifications
      ensures notifications == old(notifications) + [Notification(PointerDoublePress, FromTouch(e, input, now))]
      ensures e.kind == OfEvents.TouchDoubleTap ==> notifications[|notifications| - 1].event.eventType == POINTER_DOWN
      ensures consumed == consumeTouchEvents
    {
      Send(PointerDoublePress, FromTouch(e, input, now));
      consumed := consumeTouchEvents;
    }

    method TouchCancelled(e: TouchEvent, input: InputState, now: uint64) returns (consumed: bool)
      modifies this`notifications
      ensures notifications == old(notifications) + [Notification(PointerCancel, FromTouch(e, input, now))]
      ensures consumed == consumeTouchEvents
    {
      Send(PointerCancel, FromTouch(e, input, now));
      consumed := consumeTouchEvents;
    }
  }
}
