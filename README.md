# ofxPointer, modelled in Dafny

ofxPointer is an openFrameworks add-on. It turns raw mouse and touch
callbacks into one stream of pointer events, in the style of W3C Pointer
Events. Each event carries:

- an event type such as "pointerdown";
- a point with its pressure, tilt and contact shape;
- the device it came from;
- button and modifier bit masks;
- a tap count.

The repository holds several generations of the library side by side.
Each generation is its own Dafny module here:

| module | file | what it holds |
|---|---|---|
| `Basics` | basics.dfy | Option, float vectors, and the C++ integer conversions the casts perform |
| `OfEvents` | of_events.dfy | the openFrameworks event records, the key and button state, and the openFrameworks constants the library reads |
| `HashCombine` | hash_combine.dfy | `hash_combine` and the pointer id derived from it |
| `Json` | json.dfy | the jsoncpp value operations the JSON generation calls |
| `PointerEventArgs` | pointer_event_args.dfy | newest generation: `PointShape`, `Point`, `PointerEventArgs` and the converters |
| `PointerEvents` | pointer_events.dfy | newest generation: the tap-count tracker, the per-window `PointerEvents` object and the `PointerEventsManager` registry |
| `PointerEvent` | pointer_event.dfy | JSON generation: `PointShape`, `Point`, `PointerEvent`, the converters, and JSON encoding and decoding |
| `PointerProcessor` | pointer_processor.dfy | JSON generation: the gesture processor and the callback router |
| `InputEventArgs` | input_event_args.dfy | oldest generation: the enum-based `PointerEventArgs`, its button masks and its `toString` |
| `SrcEventArgs` | src_event_args.dfy | the header-only variant's `toString` |
| `Shape2D` | shape2d.dfy | the oldest generation's `PointShape` |
| `Point2D` | point2d.dfy | the oldest generation's 2-D `Point` |

The generations disagree with each other. The model keeps each one as its
own code has it:

- Event type names are "pointerdown" and so on in the newest generation, and "down" and so on in the JSON generation.
- The default shape has ellipse values 0 in the two newer generations and -1 in the oldest.
- The newest generation also defines the event types "gotpointercapture" and "lostpointercapture", which the others lack.

State that the source updates in place is state here too. Each method's
`ensures` states the object's whole new state in terms of the old one.

- The `PointerEvents.PointerEvents` class holds the tap tracker's map, the listener sets, the consume flags and the list of notifications sent.
- The window registry is a map field of `PointerEvents.PointerEventsManager`.
- The gesture processor's map of downs is a field of `PointerProcessor.DefaultGestureEventProcessor`.

The tap tracker also exists as a function on values, `PointerEvents.TapStep`.
`UpdateTapCount` is proved equal to it, and the lemmas about repeated taps
are proved about that function.

Sending an event through an `ofEvent` is recorded as appending a
(channel, event) pair to the object's `notifications`. The clock, the tap
timeout, the global key and mouse-button state, and `std::hash` are
parameters.

## Model

| member | source | states |
|---|---|---|
| Basics.Lift | libs/ofxPointer/src/PointerEventArgs.cpp:79-82 | the ofVec2f to ofVec3f conversion keeps x and y and sets z to 0 |
| Basics.ToUint32 | libs/ofxPointer/src/PointerEventArgs.cpp:64-68 | an `int` stored in an `unsigned int` is unchanged when in range and is otherwise reduced modulo 2^32 |
| Basics.ToUint64 | libs/ofxPointer/src/PointerEventArgs.cpp:83 | an `int` stored in an `unsigned long long` is unchanged when in range and is otherwise reduced modulo 2^64 |
| Basics.ToInt64 | libs/ofxPointer/src/PointerEvent.cpp:550-557 | each `Json::Int64` cast is unchanged in the signed range and congruent modulo 2^64 outside it |
| Basics.ToInt32 | libs/ofxPointer/src/PointerEvents.cpp:305-308 | narrowing the id to `int32_t` is unchanged in range and congruent modulo 2^32 outside it |
| Basics.Uint64Int64RoundTrip | libs/ofxPointer/src/PointerEvent.cpp:554-557 | an unsigned 64-bit value cast to `Json::Int64` and back is unchanged |
| Basics.Int64Uint64RoundTrip | libs/ofxPointer/src/PointerEvents.cpp:215-232 | an `int64_t` device id passed through the `size_t` parameter and stored back is unchanged |
| Basics.AddUint64 | libs/ofxPointer/src/PointerEvents.cpp:665 | the `uint64_t` sum `timestamp + threshold` is exact below 2^64 and wraps by 2^64 at or above it |
| OfEvents.ModifiersFromKeys | libs/ofxPointer/src/PointerEvents.cpp:382-387 | bits 0x200, 0x400, 0x800 and 0x1000 are set exactly when Control, Alt, Shift and Super are down; bit 0x100 exactly when any of them is; no other bit is set |
| OfEvents.ButtonsFromMouse | libs/ofxPointer/src/PointerEvents.cpp:482-490 | bit i-1 is set exactly when mouse button i (1..7) is down; button 8 is never consulted; no other bit is set |
| HashCombine.Combine | libs/ofxPointer/include/ofx/PointerEvents.h:790-795 | the new seed XOR the old one equals `h(v) + 0x9e3779b9 + (seed << 6) + (seed >> 2)` modulo 2^64 |
| HashCombine.EventId | libs/ofxPointer/src/PointerEvents.cpp:264-266 | the id is `hash_combine` of the device id, the pointer index and the device type, in that order, from seed 0; each step is what Combine states |
| HashCombine.CombineZeroSeed | libs/ofxPointer/include/ofx/PointerEvents.h:790-795 | starting from seed 0, the result is `h(v) + 0x9e3779b9` |
| Json.IsMember | libs/ofxPointer/src/PointerEvent.cpp:236-246 | `isMember` is defined on null and objects only, and is true exactly for a key that is present |
| Json.Member | libs/ofxPointer/src/PointerEvent.cpp:238-248 | the const `operator[]` returns the member, or null for a missing key; it is undefined on non-objects |
| Json.Get | libs/ofxPointer/src/PointerEvent.cpp:93-97 | `get(key, default)` returns the member, or the default for a missing key; it is undefined on non-objects |
| Json.AsFloat | libs/ofxPointer/src/PointerEvent.cpp:93-97 | `asFloat` returns the number, 0 for null, and fails on strings and objects |
| Json.Truncate | libs/ofxPointer/src/PointerEvent.cpp:533-539 | a real converted to an integer is truncated toward zero |
| Json.InRange | libs/ofxPointer/src/PointerEvent.cpp:533-540 | jsoncpp's range test on a real: a real within the bounds truncates to an integer within them |
| Json.AsLargestInt | libs/ofxPointer/src/PointerEvent.cpp:533-539 | `asLargestInt` keeps signed values and gives 0 for null. It fails on unsigned values of 2^63 and above, on reals outside the int64 range, on strings and on objects. A real in range truncates toward zero |
| Json.AsLargestUInt | libs/ofxPointer/src/PointerEvent.cpp:540 | `asLargestUInt` keeps unsigned values and gives 0 for null. It fails on negative integers, on reals outside [0, 2^64-1] (so -0.5 fails), on strings and on objects. A real in range truncates toward zero |
| Json.AsString | libs/ofxPointer/src/PointerEvent.cpp:531-535 | `asString` keeps strings, gives "" for null, "true" or "false" for booleans and the decimal text for numbers, and fails exactly on objects |
| Json.AsBool | libs/ofxPointer/src/PointerEvent.cpp:536 | `asBool` keeps booleans, gives false for null, and fails on strings and objects |
| PointerEvent.DefaultShape | libs/ofxPointer/src/PointerEvent.cpp:32-39 | the JSON generation's default shape is all zeros |
| PointerEvent.DefaultPoint | libs/ofxPointer/src/PointerEvent.cpp:113-124 | `Point()` is at the origin, with the default shape and every scalar 0 |
| PointerEvent.PointAt | libs/ofxPointer/src/PointerEvent.cpp:126-183 | the shorter constructors set the absolute position to the position and default whatever they are not given |
| PointerEvent.PointAtOrigin | libs/ofxPointer/src/PointerEvent.cpp:113-137 | `Point()` is `Point(origin)` |
| PointerEvent.TypeConstantsDistinct | libs/ofxPointer/src/PointerEvent.cpp:286-295 | the five event types are distinct strings, and so are the four device types |
| PointerEvent.DefaultEvent | libs/ofxPointer/src/PointerEvent.cpp:298-311 | the default event is a move with device id and pointer id -1 and an unknown device type |
| PointerEvent.GetID | libs/ofxPointer/src/PointerEvent.cpp:366-369 | `getID()` is the pair (device id, pointer id) |
| PointerEvent.GetIDInjective | libs/ofxPointer/src/PointerEvent.cpp:366-369 | two events have the same id exactly when both of their ids agree |
| PointerEvent.FromTouch | libs/ofxPointer/src/PointerEvent.cpp:408-457 | down and double tap become "down", up becomes "up", move becomes "move" and cancel becomes "cancel"; the device type is "touch"; the event is not primary and has no buttons; the pointer id comes from the touch |
| PointerEvent.FromMouse | libs/ofxPointer/src/PointerEvent.cpp:459-526 | Pressed becomes "down"; Dragged, Moved, Entered and Exited become "move"; Released becomes "up"; Scrolled becomes "scroll". Pressure is 0.5 while pressed or dragged. The device type is "mouse", the event is primary, the pointer id is 0, and the button is converted to unsigned |
| PointerEvent.ShapeRoundTrip | libs/ofxPointer/src/PointerEvent.cpp:91-111 | decoding an encoded shape gives the shape back |
| PointerEvent.ShapeToJson | libs/ofxPointer/src/PointerEvent.cpp:101-111 | `PointShape::toJSON` writes an object with exactly the five keys "width", "height", "ellipseMajorAxis", "ellipseMinorAxis" and "ellipseAngle", each a number; ShapeRoundTrip undoes it |
| PointerEvent.ShapeFromJson | libs/ofxPointer/src/PointerEvent.cpp:91-97 | `PointShape::fromJSON` fails on a value that is neither null nor an object, and decodes every object whose members are all numbers |
| PointerEvent.ShapeMissingKeys | libs/ofxPointer/src/PointerEvent.cpp:91-99 | missing shape members decode to 0 |
| PointerEvent.VecRoundTrip | libs/ofxPointer/src/PointerEvent.cpp:266-274 | an encoded x, y, z object decodes to the same vector |
| PointerEvent.VecToJson | libs/ofxPointer/src/PointerEvent.cpp:269-274 | a vector is written as an object with exactly the keys "x", "y" and "z", each a number |
| PointerEvent.VecFromJson | libs/ofxPointer/src/PointerEvent.cpp:236-252 | reading x, y and z with `get(c, 0).asFloat()` fails on a value that is neither null nor an object, and succeeds on every object whose members are all numbers |
| PointerEvent.PointScalarsRoundTrip | libs/ofxPointer/src/PointerEvent.cpp:253-283 | the shape, pressures, rotation and tilts of an encoded point decode to the point's own |
| PointerEvent.PointToJson | libs/ofxPointer/src/PointerEvent.cpp:266-283 | `Point::toJSON` writes an object whose members are the two position objects, the shape object and five numbers |
| PointerEvent.PointFromJson | libs/ofxPointer/src/PointerEvent.cpp:232-263 | the as-written `Point::fromJSON` fails on a value that is neither null nor an object, and every point it decodes has its absolute position at the origin |
| PointerEvent.PointPositionsRoundTrip | libs/ofxPointer/src/PointerEvent.cpp:236-252 | both position members of an encoded point are present and decode to the stored vectors |
| PointerEvent.PointRoundTrip | libs/ofxPointer/src/PointerEvent.cpp:232-283 | decoding an encoded point moves its absolute position into the position and resets the absolute position; every other field survives |
| PointerEvent.PointRoundTripLosesPosition | libs/ofxPointer/src/PointerEvent.cpp:244-252 | as written, the point round trip changes every point unless its position, its absolute position and the origin are all equal |
| PointerEvent.PointRoundTripIntended | libs/ofxPointer/src/PointerEvent.cpp:232-283 | when "absolutePosition" is read into the absolute position, every point survives the round trip |
| PointerEvent.PointFromJsonIntended | libs/ofxPointer/src/PointerEvent.cpp:232-263 | the corrected decoder fails on a value that is neither null nor an object, and leaves the absolute position at the origin only when "absolutePosition" is missing |
| PointerEvent.PointFromNull | libs/ofxPointer/src/PointerEvent.cpp:232-263 | a null point decodes to `Point()` |
| PointerEvent.EventRoundTrip | libs/ofxPointer/src/PointerEvent.cpp:529-560 | an event whose timestamp is below 2^63 decodes to itself, except for its point as above; the unsigned masks survive the signed casts |
| PointerEvent.EventToJson | libs/ofxPointer/src/PointerEvent.cpp:544-560 | `PointerEvent::toJSON`: what each key holds is stated by EventMembers, and EventRoundTrip undoes it below a 2^63 timestamp |
| PointerEvent.EventFromJson | libs/ofxPointer/src/PointerEvent.cpp:529-541 | `PointerEvent::fromJSON` fails on a value that is neither null nor an object, and every event it decodes has its point's absolute position at the origin |
| PointerEvent.EventMembers | libs/ofxPointer/src/PointerEvent.cpp:529-560 | each lookup the decoder makes finds what the encoder stored under that key |
| PointerEvent.EventRoundTripLargeTimestamp | libs/ofxPointer/src/PointerEvent.cpp:540-557 | a timestamp of 2^63 or more is stored as a negative number, which `asLargestUInt` refuses, so the event does not decode |
| PointerEvent.EventMissingKeys | libs/ofxPointer/src/PointerEvent.cpp:529-541 | an empty object decodes to a move of `Point()` from device 0, pointer 0, with device type "unknown"; this is not the default event |
| PointerEvent.ConvertedTouchRoundTrip | libs/ofxPointer/src/PointerEvent.cpp:408-560 | a converted touch survives encoding and decoding, except that its point's absolute position is reset |
| PointerEventArgs.DefaultShape | libs/ofxPointer/src/PointerEvents.cpp:15 | the newest generation's default shape is all zeros |
| PointerEventArgs.PointWithPressure | libs/ofxPointer/src/PointerEvents.cpp:91-96 | `Point(position, shape, pressure)` keeps the shape and sets the absolute position to the position |
| PointerEventArgs.PointWithTilt | libs/ofxPointer/src/PointerEvents.cpp:85-88 | `Point(position, pressure, tiltX, tiltY)` uses the default shape and the given tilts |
| PointerEventArgs.PointWithShape | libs/ofxPointer/src/PointerEvents.cpp:79-82 | `Point(position, shape)` stores the default shape, not the one it was given |
| PointerEventArgs.PointAt | libs/ofxPointer/src/PointerEvents.cpp:74-76 | `Point(position)` has the default shape and every scalar 0 |
| PointerEventArgs.DefaultPoint | libs/ofxPointer/src/PointerEvents.cpp:69-71 | `Point()` is at the origin |
| PointerEventArgs.PointWithShapeIgnoresShape | libs/ofxPointer/src/PointerEvents.cpp:79-82 | any two shapes passed to `Point(position, shape)` give the same point, which is `Point(position)` |
| PointerEventArgs.ShapeKeptOnlyWithPressure | libs/ofxPointer/src/PointerEvents.cpp:79-96 | the three-argument constructor keeps a non-default shape that the two-argument constructor drops |
| PointerEventArgs.TiltChainAgrees | libs/ofxPointer/src/PointerEvents.cpp:85-96 | `Point(position, pressure, 0, 0)` is `Point(position, PointShape(), pressure)` |
| PointerEventArgs.MakeArgs | libs/ofxPointer/src/PointerEvents.cpp:236-267 | the full constructor stores its arguments, storing the `size_t` device id as `int64_t`; it hashes the id from the stored device id, the index and the type |
| PointerEventArgs.DefaultArgs | libs/ofxPointer/src/PointerEvents.cpp:197-212 | the default event is a move of `Point()` from device 0, index -1, unknown device type, with no source |
| PointerEventArgs.Retype | libs/ofxPointer/src/PointerEvents.cpp:215-232 | the retyping constructor sets the new type and a null source, and keeps the id consistent with the fields |
| PointerEventArgs.RetypeKeepsEverythingElse | libs/ofxPointer/src/PointerEvents.cpp:215-267 | retyping changes only the event type and the source, and the recomputed id equals the old one |
| PointerEventArgs.EventKey | libs/ofxPointer/src/PointerEvents.cpp:305-308 | the tap key pairs the id narrowed to 32 bits with the button |
| PointerEventArgs.EventKeyNarrowing | libs/ofxPointer/src/PointerEvents.cpp:305-308 | two events with the same button share a key exactly when their ids agree in the low 32 bits |
| PointerEventArgs.FromTouch | libs/ofxPointer/src/PointerEvents.cpp:371-431 | down becomes "pointerdown" with the button-1 bit and tap count 1. Up becomes "pointerup" with no buttons. Move becomes "pointermove" with the button-1 bit. Cancel becomes "pointercancel". Double tap becomes "pointermove". The event has device type "touch" and device 0, takes its index from the touch id, cannot hover, is not primary, and has button 0 |
| PointerEventArgs.FromMouse | libs/ofxPointer/src/PointerEvents.cpp:434-508 | Pressed becomes a down with pressure 0.5 and tap count 1. Dragged becomes a move with pressure 0.5. Moved, Entered and Exited become a move with pressure 0. Released becomes an up. Scrolled becomes "pointerscroll". The event has device type "mouse" and index 0, can hover, is primary, and takes its button from the mouse event |
| PointerEventArgs.MouseEventsShareKey | libs/ofxPointer/src/PointerEvents.cpp:434-508 | all mouse events of one button share a tap key |
| PointerEventArgs.TouchesShareKey | libs/ofxPointer/src/PointerEvents.cpp:371-431 | touches with the same id share a tap key |
| PointerEvents.TapStep | libs/ofxPointer/src/PointerEvents.cpp:653-682 | one update changes at most the event's tap count |
| PointerEvents.TapStepDown | libs/ofxPointer/src/PointerEvents.cpp:661-672 | a down adds the stored count exactly when an entry exists and the down comes no later than the stored time plus the timeout. The entry becomes the event, and no other key changes |
| PointerEvents.TapStepUp | libs/ofxPointer/src/PointerEvents.cpp:673-677 | an up inherits the stored count if there is an entry and is unchanged otherwise; an up never changes the map |
| PointerEvents.TapStepOther | libs/ofxPointer/src/PointerEvents.cpp:678-681 | any other event is unchanged; it erases its entry exactly when the entry exists and has expired |
| PointerEvents.TapStepLocal | libs/ofxPointer/src/PointerEvents.cpp:653-682 | no update touches the entry of another key |
| PointerEvents.ReplayEvents | libs/ofxPointer/src/PointerEvents.cpp:653-682 | replaying a sequence of updates gives one event per input |
| PointerEvents.TapRunFirstStep | libs/ofxPointer/src/PointerEvents.cpp:661-672 | the first tap of a run adds one to the stored count and becomes the entry its successors are measured from |
| PointerEvents.TapRunCounts | libs/ofxPointer/src/PointerEvents.cpp:661-672 | after a stored count n, a run of taps on one key, each within the timeout of the last, counts n+1, n+2, ... |
| PointerEvents.TapsFromScratch | libs/ofxPointer/src/PointerEvents.cpp:661-672 | a first tap on a fresh key, followed by a run of taps, counts 1, 2, 3, ... |
| PointerEvents.DoubleClick | libs/ofxPointer/src/PointerEvents.cpp:567-584 | a press, a release, then a second press within the timeout: the release inherits count 1 and the second press counts 2 |
| PointerEvents.PointerEvents.constructor | libs/ofxPointer/src/PointerEvents.cpp:511-542 | a new object has its source, both consume flags off, an empty tap map and no listeners |
| PointerEvents.PointerEvents.SetConsumeMouseEvents | libs/ofxPointer/src/PointerEvents.cpp:634-637 | sets the mouse consume flag |
| PointerEvents.PointerEvents.SetConsumeTouchEvents | libs/ofxPointer/src/PointerEvents.cpp:640-643 | sets the touch consume flag |
| PointerEvents.PointerEvents.RegisterPointerEvents | libs/ofxPointer/include/ofx/PointerEvents.h:696-702 | adds the registration to exactly the down, up, move and cancel sets |
| PointerEvents.PointerEvents.UnregisterPointerEvents | libs/ofxPointer/include/ofx/PointerEvents.h:706-712 | removes the registration from those four sets, after which it is on none of them |
| PointerEvents.PointerEvents.UpdateTapCount | libs/ofxPointer/src/PointerEvents.cpp:653-682 | the new map and the updated event are exactly `TapStep` of the old map and the event |
| PointerEvents.PointerEvents.MouseMoved | libs/ofxPointer/src/PointerEvents.cpp:549-555 | one move notification and no tap counting; returns the mouse consume flag |
| PointerEvents.PointerEvents.MouseDragged | libs/ofxPointer/src/PointerEvents.cpp:558-564 | one move notification and no tap counting; returns the mouse consume flag |
| PointerEvents.PointerEvents.MousePressed | libs/ofxPointer/src/PointerEvents.cpp:567-574 | tap counting, then a down notification of the counted event; returns the mouse consume flag |
| PointerEvents.PointerEvents.MouseReleased | libs/ofxPointer/src/PointerEvents.cpp:577-584 | tap counting, then an up notification of the counted event; returns the mouse consume flag |
| PointerEvents.PointerEvents.TouchDown | libs/ofxPointer/src/PointerEvents.cpp:587-594 | tap counting, then a down notification; returns the touch consume flag |
| PointerEvents.PointerEvents.TouchMoved | libs/ofxPointer/src/PointerEvents.cpp:597-603 | one move notification and no tap counting; returns the touch consume flag |
| PointerEvents.PointerEvents.TouchUp | libs/ofxPointer/src/PointerEvents.cpp:606-613 | tap counting, then an up notification; returns the touch consume flag |
| PointerEvents.PointerEvents.TouchDoubleTap | libs/ofxPointer/src/PointerEvents.cpp:616-621 | changes nothing and returns the touch consume flag |
| PointerEvents.PointerEvents.TouchCancelled | libs/ofxPointer/src/PointerEvents.cpp:624-631 | tap counting, which may expire the entry, then a cancel notification; returns the touch consume flag |
| PointerEvents.PointerEventsManager.constructor | libs/ofxPointer/src/PointerEvents.cpp:715-718 | the registry starts empty |
| PointerEvents.PointerEventsManager.EventsForWindow | libs/ofxPointer/src/PointerEvents.cpp:691-705 | get-or-create: returns the stored object if there is one, otherwise stores a fresh object for that window. The result is never null, and the only key added is the window |
| PointerEvents.PointerEventsManager.Events | libs/ofxPointer/src/PointerEvents.cpp:685-688 | `events()` is `eventsForWindow(nullptr)`: the null window's object, created with the constructor's state if it was missing (source null, both flags off, empty tap map, no listeners, no notifications) |
| PointerEvents.EventsForWindowIdempotent | libs/ofxPointer/src/PointerEvents.cpp:691-705 | a second lookup of the same window returns the same object and adds no key |
| PointerEvents.RegisterPointerEventsForWindow | libs/ofxPointer/include/ofx/PointerEvents.h:741-754 | the window's object, created with the constructor's state if need be, gets the registration on its four sets; its consume flags, tap map and notifications are unchanged; no other object changes; the error branch is never taken |
| PointerEvents.UnregisterPointerEventsForWindow | libs/ofxPointer/include/ofx/PointerEvents.h:757-770 | removes the registration at the default priority from the window's four sets, whatever priority was used to register; its consume flags, tap map and notifications are unchanged; a missing window gets an object in the constructor's state; no other object changes |
| PointerEvents.RegisterPointerEvents | libs/ofxPointer/include/ofx/PointerEvents.h:773-777 | behaves as `RegisterPointerEventsForWindow(nullptr, ...)`, with the same whole-state contract for the null window's object |
| PointerEvents.UnregisterPointerEvents | libs/ofxPointer/include/ofx/PointerEvents.h:780-784 | behaves as `UnregisterPointerEventsForWindow(nullptr, ...)`, with the same whole-state contract for the null window's object |
| PointerEvents.UnregisterIgnoresPriority | libs/ofxPointer/include/ofx/PointerEvents.h:757-770 | a registration at a non-default priority survives the window helper's unregister |
| PointerProcessor.DefaultGestureEventProcessor.constructor | libs/ofxPointer/src/Pointer.cpp:36-40 | the tap threshold starts at `DEFAULT_TAP_DELAY` (500), and no down is stored |
| PointerProcessor.DefaultGestureEventProcessor.HandlePointerDown | libs/ofxPointer/src/Pointer.cpp:78-117 | stores the incoming event under (device id, pointer id, button), overwriting any earlier one. The tap count is always 1, so the double-press branch is never taken |
| PointerProcessor.DefaultGestureEventProcessor.OnPointerUp | libs/ofxPointer/src/Pointer.cpp:49-53 | returns false |
| PointerProcessor.DefaultGestureEventProcessor.OnPointerDown | libs/ofxPointer/src/Pointer.cpp:56-61 | stores the down and returns false |
| PointerProcessor.DefaultGestureEventProcessor.OnPointerMove | libs/ofxPointer/src/Pointer.cpp:64-68 | returns false |
| PointerProcessor.DefaultGestureEventProcessor.OnPointerCancel | libs/ofxPointer/src/Pointer.cpp:71-75 | returns false |
| PointerProcessor.HandlePointerDownIsLocal | libs/ofxPointer/src/Pointer.cpp:78-117 | storing a down leaves the entry of every other key as it was |
| PointerProcessor.DefaultPointerEventProcessor.constructor | libs/ofxPointer/src/Pointer.cpp:120-137 | both consume flags start off |
| PointerProcessor.DefaultPointerEventProcessor.SetConsumeMouseEvents | libs/ofxPointer/src/Pointer.cpp:233-236 | sets the mouse consume flag |
| PointerProcessor.DefaultPointerEventProcessor.SetConsumeTouchEvents | libs/ofxPointer/src/Pointer.cpp:239-242 | sets the touch consume flag |
| PointerProcessor.DefaultPointerEventProcessor.MouseMoved | libs/ofxPointer/src/Pointer.cpp:161-166 | a move notification of the converted event; returns the mouse consume flag |
| PointerProcessor.DefaultPointerEventProcessor.MouseDragged | libs/ofxPointer/src/Pointer.cpp:169-174 | a move notification; returns the mouse consume flag |
| PointerProcessor.DefaultPointerEventProcessor.MousePressed | libs/ofxPointer/src/Pointer.cpp:177-182 | a down notification; returns the mouse consume flag |
| PointerProcessor.DefaultPointerEventProcessor.MouseReleased | libs/ofxPointer/src/Pointer.cpp:185-190 | an up notification; returns the mouse consume flag |
| PointerProcessor.DefaultPointerEventProcessor.TouchDown | libs/ofxPointer/src/Pointer.cpp:193-198 | a down notification; returns the touch consume flag |
| PointerProcessor.DefaultPointerEventProcessor.TouchMoved | libs/ofxPointer/src/Pointer.cpp:201-206 | a move notification; returns the touch consume flag |
| PointerProcessor.DefaultPointerEventProcessor.TouchUp | libs/ofxPointer/src/Pointer.cpp:209-214 | an up notification; returns the touch consume flag |
| PointerProcessor.DefaultPointerEventProcessor.TouchDoubleTap | libs/ofxPointer/src/Pointer.cpp:217-222 | a double-press notification of an event whose type is "down"; returns the touch consume flag |
| PointerProcessor.DefaultPointerEventProcessor.TouchCancelled | libs/ofxPointer/src/Pointer.cpp:225-230 | a cancel notification; returns the touch consume flag |
| InputEventArgs.DeviceTypeValue | libs/ofxPointer/includes/ofx/Input/PointerEventArgs.h:51-57 | UNKNOWN is -1, and every value lies in -1..2 |
| InputEventArgs.DeviceTypeValuesDistinct | libs/ofxPointer/includes/ofx/Input/PointerEventArgs.h:51-57 | the four device types have four different values |
| InputEventArgs.KeyMasksAreKeyCodes | libs/ofxPointer/includes/ofx/Input/PointerEventArgs.h:136-139 | the masks tested are the openFrameworks key codes |
| InputEventArgs.ButtonsArePowersOf16 | libs/ofxPointer/includes/ofx/Input/PointerEventArgs.h:61-68 | `POINTER_BUTTON_i` is 16^(i-1) for i in 1..8 |
| InputEventArgs.ButtonsDisjoint | libs/ofxPointer/includes/ofx/Input/PointerEventArgs.h:61-68 | any two of the eight button constants AND to 0, and none of them is 0 |
| InputEventArgs.ButtonAliases | libs/ofxPointer/includes/ofx/Input/PointerEventArgs.h:69-72 | LEFT, MIDDLE and RIGHT are buttons 1, 2 and 3, and LAST is button 8 |
| InputEventArgs.DefaultArgs | libs/ofxPointer/src/PointerEventArgs.cpp:32-57 | the event type and device type are unknown, every count is 0, and the event is not in contact |
| InputEventArgs.FromTouch | libs/ofxPointer/src/PointerEventArgs.cpp:60-103 | down, up, move, double tap and cancel map to their namesakes; the event is in contact and its device is unknown; the id, the counts and the time are converted from `int` |
| InputEventArgs.PointerButtonsFromMouse | libs/ofxPointer/src/PointerEventArgs.cpp:157-164 | `POINTER_BUTTON_i` is set exactly when mouse button i (1..8) is down, and no other bit is set |
| InputEventArgs.FromMouse | libs/ofxPointer/src/PointerEventArgs.cpp:106-166 | Pressed becomes DOWN with pressure 1, in contact. Moved becomes MOVE with pressure 0, not in contact. Released becomes UP with pressure 0, in contact. Dragged becomes MOVE with pressure 1, in contact. Every other kind becomes UNKNOWN. The buttons come from the pressed mouse buttons. The modifiers are the uninitialised value and the timestamp is the clock. Every other field is 0 or the origin |
| InputEventArgs.MouseButtonDiscarded | libs/ofxPointer/src/PointerEventArgs.cpp:122-131 | the event's own button has no effect on the result |
| InputEventArgs.IsModifierPressed | libs/ofxPointer/src/PointerEventArgs.cpp:203-206 | true exactly when the modifiers and the mask share a bit |
| InputEventArgs.IsButtonPressed | libs/ofxPointer/src/PointerEventArgs.cpp:209-212 | true exactly when the buttons and the mask share a bit |
| InputEventArgs.MouseButtonsReadBack | libs/ofxPointer/src/PointerEventArgs.cpp:157-212 | after a mouse conversion, LEFT, MIDDLE and RIGHT read as pressed exactly when those mouse buttons are down |
| InputEventArgs.Equals | libs/ofxPointer/src/PointerEventArgs.cpp:233-237 | `==` is false, even for an event compared with itself |
| InputEventArgs.NotEquals | libs/ofxPointer/src/PointerEventArgs.cpp:240-243 | `!=` is the negation of `==`, and so is always true |
| InputEventArgs.LabelsDistinct | libs/ofxPointer/includes/ofx/Input/PointerEventArgs.h:110-132 | different event types have different labels |
| InputEventArgs.Label | libs/ofxPointer/includes/ofx/Input/PointerEventArgs.h:110-132 | the `switch` that names the event type; LabelsDistinct states that the six names differ |
| InputEventArgs.SetFlagsInOrder | libs/ofxPointer/includes/ofx/Input/PointerEventArgs.h:136-143 | the printed lines keep the order in which the code tests them |
| InputEventArgs.SetFlagsIff | libs/ofxPointer/includes/ofx/Input/PointerEventArgs.h:136-143 | a line is printed exactly when its test holds |
| InputEventArgs.EndlTabLineStep | libs/ofxPointer/includes/ofx/Input/PointerEventArgs.h:136-143 | one conditional append adds its flag's name to the printed names exactly when its test holds |
| InputEventArgs.AppendedIsSetFlags | libs/ofxPointer/includes/ofx/Input/PointerEventArgs.h:136-143 | the conditional appends print exactly the names of the tests that hold |
| InputEventArgs.ToStringIsAppended | libs/ofxPointer/includes/ofx/Input/PointerEventArgs.h:106-146 | `toString` is its first part followed by the seven conditional appends |
| InputEventArgs.ToString | libs/ofxPointer/includes/ofx/Input/PointerEventArgs.h:106-146 | `toString`; ToStringStructure states it is the label, " pos: ", the position and then one line per set modifier or button in table order |
| InputEventArgs.ToStringFlagsDistinct | libs/ofxPointer/includes/ofx/Input/PointerEventArgs.h:136-143 | the seven lines have different texts |
| InputEventArgs.ToStringStructure | libs/ofxPointer/includes/ofx/Input/PointerEventArgs.h:106-146 | `toString` is the label, " pos: " and the position, then one line for each set modifier (CONTROL, ALT, SHIFT, SUPER) and each pressed button (LEFT, MIDDLE, RIGHT), in that order; each line is present exactly when its flag is set |
| InputEventArgs.ToStringNothingSet | libs/ofxPointer/includes/ofx/Input/PointerEventArgs.h:106-146 | with no modifier bit and none of the three buttons set, only the first part is printed |
| InputEventArgs.SharedModifierBitPrintsAll | libs/ofxPointer/includes/ofx/Input/PointerEventArgs.h:136-139 | a modifier mask holding only the shared OF_KEY_MODIFIER bit prints all four modifier lines |
| SrcEventArgs.MouseIndicesAreButtonNumbers | src/PointerEventArgs.h:130-132 | the values the button tests use are the openFrameworks button numbers 0, 1 and 2 |
| SrcEventArgs.TabEndlLineStep | src/PointerEventArgs.h:125-132 | one conditional append adds its flag's name to the printed names exactly when its test holds |
| SrcEventArgs.SrcAppendedIsSetFlags | src/PointerEventArgs.h:125-132 | the conditional appends print `"\t" + name + "\n"` exactly for the tests that hold |
| SrcEventArgs.SrcToStringIsAppended | src/PointerEventArgs.h:89-137 | `toString` is its first line followed by the seven conditional appends |
| SrcEventArgs.SrcToString | src/PointerEventArgs.h:89-137 | the header-only `toString`; SrcToStringStructure states it is the first line and then one line per test that holds, in table order |
| SrcEventArgs.SrcFlagsDistinct | src/PointerEventArgs.h:125-132 | the seven lines have different texts |
| SrcEventArgs.SrcToStringStructure | src/PointerEventArgs.h:89-137 | the first line is the label, " pos: ", the position and a newline; then comes one line for each test that holds, in the order CONTROL, ALT, SHIFT, SUPER, LEFT, MIDDLE, RIGHT |
| SrcEventArgs.SrcLeftButtonNeverPrinted | src/PointerEventArgs.h:130 | the left-button test uses the empty mask, so its line is never printed |
| SrcEventArgs.SrcFirstButtonPrintedAsMiddle | src/PointerEventArgs.h:130-132 | with only button bit 0x1 set and no modifier, the one line printed is the middle-button line |
| SrcEventArgs.SrcLeftPressPrintedAsMiddle | src/PointerEventArgs.h:130-132 | a converted left-button press prints the middle-button line |
| SrcEventArgs.SrcToStringCorrectedButtons | src/PointerEventArgs.h:130-132 | when the tests use the masks `POINTER_BUTTON_LEFT`, `_MIDDLE` and `_RIGHT`, each button line appears exactly when its mask is set, and with nothing set only the first line is printed |
| SrcEventArgs.SrcToStringCorrected | src/PointerEventArgs.h:130-132 | the header-only `toString` with the button lines tested by their masks; SrcToStringCorrectedButtons and CorrectedMouseButtonLines state what it prints |
| SrcEventArgs.CorrectedMouseButtonLines | src/PointerEventArgs.h:130-132 | with the corrected tests, a converted mouse event prints the line of button i, and exactly that text, precisely when mouse button i is down |
| SrcEventArgs.SrcToStringNothingSet | src/PointerEventArgs.h:118-136 | when no modifier test and no button test matches, the result is exactly the first line |
| Shape2D.DefaultShape | libs/ofxPointer/src/PointShape.cpp:32-39 | the shape has no extent, and each ellipse value is -1 |
| Shape2D.NewShape | libs/ofxPointer/src/PointShape.cpp:42-53 | the definition binds argument 3 to the angle, argument 4 to the major axis and argument 5 to the minor axis |
| Shape2D.HeaderOrderCall | libs/ofxPointer/src/PointShape.cpp:42-53 | a call in the header's argument order stores the major axis as the angle; a two-argument call gives ellipse values 0, unlike the default shape |
| Shape2D.GettersReturnArguments | libs/ofxPointer/src/PointShape.cpp:61-87 | the width, height, major-axis and minor-axis getters return the constructed values, and so does the corrected angle getter |
| Shape2D.GetWidth | libs/ofxPointer/src/PointShape.cpp:61-64 | `getWidth()`; GettersReturnArguments states it returns the constructed width |
| Shape2D.GetHeight | libs/ofxPointer/src/PointShape.cpp:67-70 | `getHeight()`; GettersReturnArguments states it returns the constructed height |
| Shape2D.GetEllipseMajorAxis | libs/ofxPointer/src/PointShape.cpp:79-82 | `getEllipseMajorAxis()`; GettersReturnArguments states it returns the constructed major axis |
| Shape2D.GetEllipseMinorAxis | libs/ofxPointer/src/PointShape.cpp:85-88 | `getEllipseMinorAxis()`; GettersReturnArguments states it returns the constructed minor axis |
| Shape2D.GetEllipseAngleCorrected | libs/ofxPointer/src/PointShape.cpp:73-76 | the angle getter as evidently intended; GettersReturnArguments states it returns the constructed angle |
| Shape2D.GettersDetermineShape | libs/ofxPointer/src/PointShape.cpp:61-87 | two shapes are equal exactly when all five getters agree, using the corrected angle getter |
| Shape2D.EllipseAngleReadsHeight | libs/ofxPointer/src/PointShape.cpp:73-76 | `getEllipseAngle()` returns the height, not the angle |
| Shape2D.GetEllipseAngle | libs/ofxPointer/src/PointShape.cpp:73-76 | `getEllipseAngle()` as written; EllipseAngleReadsHeight states it returns the height |
| Point2D.MakePoint | libs/ofxPointer/src/Point.cpp:72-112 | after the full constructor, every getter returns its argument |
| Point2D.GetPosition | libs/ofxPointer/src/Point.cpp:72-78 | the ofVec2f base of the point; MakePoint states it is the constructed position |
| Point2D.GetPressure | libs/ofxPointer/src/Point.cpp:91-94 | `getPressure()`; MakePoint states it returns the constructed pressure |
| Point2D.GetTiltX | libs/ofxPointer/src/Point.cpp:97-100 | `getTiltX()`; MakePoint states it returns the constructed x tilt |
| Point2D.GetTiltY | libs/ofxPointer/src/Point.cpp:103-106 | `getTiltY()`; MakePoint states it returns the constructed y tilt |
| Point2D.GetShape | libs/ofxPointer/src/Point.cpp:109-112 | `getShape()`; MakePoint states it returns the constructed shape |
| Point2D.DefaultPoint | libs/ofxPointer/src/Point.cpp:32-39 | `Point()` is at (0, 0), with the default shape and zero pressure and tilts |
| Point2D.PointAt | libs/ofxPointer/src/Point.cpp:42-49 | `Point(pos)` keeps `pos`, with the default shape and zero pressure and tilts |
| Point2D.PointWithShape | libs/ofxPointer/src/Point.cpp:52-59 | `Point(pos, shape)` keeps the shape, with zero pressure and tilts |
| Point2D.PointWithTilt | libs/ofxPointer/src/Point.cpp:62-69 | `Point(pos, p, tx, ty)` uses the default shape and the given pressure and tilts |
| Point2D.ConstructorsAgree | libs/ofxPointer/src/Point.cpp:32-69 | the shorter constructors agree where their arguments overlap |
| Point2D.GettersDeterminePoint | libs/ofxPointer/src/Point.cpp:91-112 | a point is determined by its five getters |

## Left out

- Delivery of notifications to listeners, the ordering by listener priority, and `ofEvent` itself are openFrameworks code. A notification is recorded as an appended (channel, event) pair.
- The listener wiring in the constructors and destructors of `PointerEvents`, `DefaultPointerEventProcessor` and `DefaultGestureEventProcessor` only connects to openFrameworks events.
- The empty `update` callback of `DefaultPointerEventProcessor` does nothing.
- Singletons and static instances (`instance()`, `PointerGestureEvents()`, the static processor pointers and their setters) are global plumbing with no logic.
- `PointerUtilities` makes operating-system queries. The tap timeout and the clock are parameters instead.
- The iOS view code, the examples and the generated documentation are outside the library's core.
- `std::hash` is foreign code and is passed in as a record of functions.
- HashCombine.EventId: has no contract of its own; what each of its three steps does is the contract of Combine, and the predicate `IdConsistent` uses it.
- UnregisterIgnoresPriority: `ofEvent` is taken to identify a listener by its object, its method and its priority, so that a registration is the pair (listener, priority); openFrameworks is not part of this model.
- HashCombine.Combine: injectivity in the hashed value is not stated, because the bit-vector proof exceeds the solver budget.
- The printing of `ofVec3f` and `glm::vec3` is foreign, so `toString` takes it as a function parameter.
- The `cout` line of the header-only `toString`, and every log message, are output only.
- No arithmetic is performed on floats: they are `real` values that are only stored and copied.
- The openFrameworks constants are not in this repository. They take the values openFrameworks gives them:
  - OF_KEY_MODIFIER is 0x100;
  - Control, Alt, Shift and Super are 0x200, 0x400, 0x800 and 0x1000, each combined with 0x100;
  - the mouse buttons are 0..7;
  - OF_EVENT_ORDER_AFTER_APP is 200.
- `long` and `size_t` are taken to be 64 bits wide, and `unsigned int` 32 bits.
- jsoncpp's conversions are those of jsoncpp 1.x, modelled only as far as the decoders use them. Where jsoncpp throws, the result is None.
- Json.AsString: the decimal text jsoncpp's `valueToString` gives a number is a parameter, because its number formatting is foreign code.
- Json.InRange: the bounds are compared as exact reals, not as the doubles jsoncpp rounds them to.
- InputEventArgs.FromMouse: `_modifiers` is never initialised, so its value is a parameter.
- src/PointerEventArgs.cpp is not part of this model. The header-only variant is taken to share the mouse constructor of libs/ofxPointer/src/PointerEventArgs.cpp, and its `isModifierPressed` and `isButtonPressed` are taken to be the same bitwise tests.
- PointerEvents.ReplayEvents: states only that there is one event per input; its tap counts are stated by TapRunCounts and TapsFromScratch.
- PointerEvent.EventFromJson: calls the as-written point decoder, as the source does; the corrected point decoder is proved separately.

## Findings

| source | as written | input that shows it | evidently intended | confidence | as-written member | corrected member |
|---|---|---|---|---|---|---|
| libs/ofxPointer/src/PointerEvent.cpp:244-252 | the "absolutePosition" member is read into the position, and the absolute position stays at the origin | a point with position (0,0,0) and absolute position (1,0,0) | read "absolutePosition" into the absolute position, so that every point survives the round trip | high, not executed | PointerEvent.PointRoundTripLosesPosition | PointerEvent.PointRoundTripIntended |
| libs/ofxPointer/src/PointShape.cpp:73-76 | `getEllipseAngle()` returns the height | the default shape, whose angle is -1 and height 0, reads an angle of 0 | return the ellipse angle | high, not executed | Shape2D.EllipseAngleReadsHeight | Shape2D.GettersReturnArguments |
| src/PointerEventArgs.h:130-132 | the button lines use the openFrameworks button numbers 0, 1 and 2 as masks | a left-button press: its buttons are 0x1, so the left test (mask 0) fails and the middle line is printed | test each button's `POINTER_BUTTON_i` mask, which the mouse constructor sets for mouse button i | medium, not executed | SrcEventArgs.SrcLeftPressPrintedAsMiddle | SrcEventArgs.CorrectedMouseButtonLines |
