/**
 * `toString` of the header-only variant src/PointerEventArgs.h. The class
 * has the same fields as the record of InputEventArgs, which is reused;
 * since its implementation file is not part of this model, isModifierPressed
 * and isButtonPressed are taken to be the bitwise tests of
 * libs/ofxPointer/src/PointerEventArgs.cpp:203-212.
 *
 * This toString ends every line with `endl`, and it tests the mouse
 * buttons with openFrameworks' button indices (0, 1, 2) where the other
 * generation uses its masks. Index 0 is an empty mask, so the left-button
 * line can never be printed; SrcToStringCorrected tests the masks
 * POINTER_BUTTON_LEFT, _MIDDLE and _RIGHT that the mouse constructor of
 * libs/ofxPointer/src/PointerEventArgs.cpp:157-159 sets, which this
 * variant is taken to share.
 */
module SrcEventArgs {
  import opened Basics
  import opened OfEvents
  import opened InputEventArgs

  // OF_MOUSE_BUTTON_LEFT, _MIDDLE and _RIGHT converted to `unsigned int`.
  const MOUSE_LEFT_INDEX: bv32 := 0
  const MOUSE_MIDDLE_INDEX: bv32 := 1
  const MOUSE_RIGHT_INDEX: bv32 := 2

  /** The index constants are the openFrameworks button numbers. */
  lemma MouseIndicesAreButtonNumbers()
    ensures MOUSE_LEFT_INDEX as int == OF_MOUSE_BUTTON_LEFT
    ensures MOUSE_MIDDLE_INDEX as int == OF_MOUSE_BUTTON_MIDDLE
    ensures MOUSE_RIGHT_INDEX as int == OF_MOUSE_BUTTON_RIGHT
  {
  }

  const SRC_LEFT_LINE := Flag("OF_MOUSE_BUTTON_LEFT", false, MOUSE_LEFT_INDEX)
  const SRC_MIDDLE_LINE := Flag("OF_MOUSE_BUTTON_MIDDLE", false, MOUSE_MIDDLE_INDEX)
  const SRC_RIGHT_LINE := Flag("OF_MOUSE_BUTTON_RIGHT", false, MOUSE_RIGHT_INDEX)

  /** The seven optional lines, in the order toString tests them. */
  const SrcFlags: seq<Flag> := [CONTROL_LINE, ALT_LINE, SHIFT_LINE, SUPER_LINE, SRC_LEFT_LINE, SRC_MIDDLE_LINE, SRC_RIGHT_LINE]

  /** `"\t" << name << endl`: a name between a tab and a line break. */
  function TabEndl(name: string): (r: string)
    ensures |r| == |name| + 2
  {
    "\t" + name + "\n"
  }

  /** `ss << "\t" << name << endl` when the flag is set. */
  function TabEndlLine(a: PointerEventArgs, f: Flag): string
  {
    if FlagSet(a, f) then TabEndl(f.name) else ""
  }

  /** Each name preceded by a tab and followed by a line break. */
  function TabEndlLines(names: seq<string>): string
  {
    if |names| == 0 then "" else TabEndl(names[0]) + TabEndlLines(names[1..])
  }

  /** The first line: label, " pos: ", the position and a line break. */
  function FirstLine(a: PointerEventArgs, fmt: Vec3 -> string): string
  {
    Label(a.eventType) + " pos: " + fmt(a.position) + "\n"
  }

  /** toString (src/PointerEventArgs.h:89-137), without its console output. */
  function SrcToString(a: PointerEventArgs, fmt: Vec3 -> string): string
  {
    FirstLine(a, fmt)
    + TabEndlLine(a, CONTROL_LINE) + TabEndlLine(a, ALT_LINE) + TabEndlLine(a, SHIFT_LINE) + TabEndlLine(a, SUPER_LINE)
    + TabEndlLine(a, SRC_LEFT_LINE) + TabEndlLine(a, SRC_MIDDLE_LINE) + TabEndlLine(a, SRC_RIGHT_LINE)
  }

  /** `acc` followed by one conditional append per flag of the table, in order. */
  function SrcAppended(acc: string, a: PointerEventArgs, fs: seq<Flag>): string
    decreases |fs|
  {
    if |fs| == 0 then acc else SrcAppended(acc + TabEndlLine(a, fs[0]), a, fs[1..])
  }

  /** One conditional append, whether or not its flag is set, extends the printed names by that flag's. */
  lemma TabEndlLineStep(acc: string, line: string, name: string, isSet: bool, rest: seq<string>)
    requires line == if isSet then TabEndl(name) else ""
    ensures (acc + line) + TabEndlLines(rest) == acc + TabEndlLines((if isSet then [name] else []) + rest)
  {
    if isSet {
      assert ([name] + rest)[0] == name && ([name] + rest)[1..] == rest;
    } else {
      assert [] + rest == rest;
    }
  }

  /** The conditional appends of a table print exactly the names of its set flags. */
  lemma {:induction false} SrcAppendedIsSetFlags(acc: string, a: PointerEventArgs, fs: seq<Flag>)
    ensures SrcAppended(acc, a, fs) == acc + TabEndlLines(SetFlags(a, fs))
    decreases |fs|
  {
    if |fs| > 0 {
      var line := TabEndlLine(a, fs[0]);
      SrcAppendedIsSetFlags(acc + line, a, fs[1..]);
      TabEndlLineStep(acc, line, fs[0].name, FlagSet(a, fs[0]), SetFlags(a, fs[1..]));
    }
  }

  /** toString's seven conditional appends are the appends of its table. */
  lemma SrcToStringIsAppended(a: PointerEventArgs, fmt: Vec3 -> string)
    ensures SrcToString(a, fmt) == SrcAppended(FirstLine(a, fmt), a, SrcFlags)
  {
    var fs := SrcFlags;
    var h1 := FirstLine(a, fmt) + TabEndlLine(a, CONTROL_LINE);
    var h2 := h1 + TabEndlLine(a, ALT_LINE);
    var h3 := h2 + TabEndlLine(a, SHIFT_LINE);
    var h4 := h3 + TabEndlLine(a, SUPER_LINE);
    var h5 := h4 + TabEndlLine(a, SRC_LEFT_LINE);
    var h6 := h5 + TabEndlLine(a, SRC_MIDDLE_LINE);
    var h7 := h6 + TabEndlLine(a, SRC_RIGHT_LINE);
    assert SrcAppended(h7, a, fs[7..]) == h7;
    assert SrcAppended(h6, a, fs[6..]) == h7 by { assert fs[6..][1..] == fs[7..]; }
    assert SrcAppended(h5, a, fs[5..]) == h7 by { assert fs[5..][1..] == fs[6..]; }
    assert SrcAppended(h4, a, fs[4..]) == h7 by { assert fs[4..][1..] == fs[5..]; }
    assert SrcAppended(h3, a, fs[3..]) == h7 by { assert fs[3..][1..] == fs[4..]; }
    assert SrcAppended(h2, a, fs[2..]) == h7 by { assert fs[2..][1..] == fs[3..]; }
    assert SrcAppended(h1, a, fs[1..]) == h7 by { assert fs[1..][1..] == fs[2..]; }
  }

  lemma SrcFlagsDistinct()
    ensures DistinctNames(SrcFlags)
  {
  }

  /**
   * toString is the first line and then one line per set flag of the
   * table, in the table's order, each flag's line present exactly when the
   * flag is set.
   */
  lemma SrcToStringStructure(a: PointerEventArgs, fmt: Vec3 -> string)
    ensures SrcToString(a, fmt) == FirstLine(a, fmt) + TabEndlLines(SetFlags(a, SrcFlags))
    ensures IsSubsequence(SetFlags(a, SrcFlags), Names(SrcFlags))
    ensures forall f :: f in SrcFlags ==> (f.name in SetFlags(a, SrcFlags) <==> FlagSet(a, f))
  {
    SrcToStringIsAppended(a, fmt);
    SrcAppendedIsSetFlags(FirstLine(a, fmt), a, SrcFlags);
    SetFlagsInOrder(a, SrcFlags);
    SrcFlagsDistinct();
    forall f | f in SrcFlags
      ensures f.name in SetFlags(a, SrcFlags) <==> FlagSet(a, f)
    {
      SetFlagsIff(a, SrcFlags, f);
    }
  }

  /** As written, the left-button line is never printed, whatever the buttons. */
  lemma SrcLeftButtonNeverPrinted(a: PointerEventArgs, fmt: Vec3 -> string)
    ensures "OF_MOUSE_BUTTON_LEFT" !in SetFlags(a, SrcFlags)
    ensures TabEndlLine(a, SRC_LEFT_LINE) == ""
  {
    SrcToStringStructure(a, fmt);
    assert SRC_LEFT_LINE in SrcFlags;
  }

  /**
   * With only the first button bit set and no modifier, the single line
   * printed is the middle-button line, whose test uses mask 1.
   */
  lemma SrcFirstButtonPrintedAsMiddle(a: PointerEventArgs, fmt: Vec3 -> string)
    requires a.buttons == 1 && a.modifiers == 0
    ensures SrcToString(a, fmt) == FirstLine(a, fmt) + TabEndl(SRC_MIDDLE_LINE.name)
  {
    assert TabEndlLine(a, CONTROL_LINE) == [] && TabEndlLine(a, ALT_LINE) == [];
    assert TabEndlLine(a, SHIFT_LINE) == [] && TabEndlLine(a, SUPER_LINE) == [];
    assert TabEndlLine(a, SRC_LEFT_LINE) == [] && TabEndlLine(a, SRC_RIGHT_LINE) == [];
    assert TabEndlLine(a, SRC_MIDDLE_LINE) == TabEndl(SRC_MIDDLE_LINE.name);
  }

  /**
   * A left-button press converted by PointerEventArgs(ofMouseEventArgs)
   * prints the middle-button line and not the left-button line.
   */
  lemma SrcLeftPressPrintedAsMiddle(e: MouseEvent, now: uint64, fmt: Vec3 -> string)
    requires e.kind == Pressed
    ensures var a := FromMouse(e, InputState({}, {OF_MOUSE_BUTTON_LEFT}), now, 0);
            SrcToString(a, fmt) == FirstLine(a, fmt) + TabEndl(SRC_MIDDLE_LINE.name)
  {
    var a := FromMouse(e, InputState({}, {OF_MOUSE_BUTTON_LEFT}), now, 0);
    assert a.buttons == 1 && a.modifiers == 0;
    SrcFirstButtonPrintedAsMiddle(a, fmt);
  }

  /**
   * The mask each button line was evidently meant to test: the Buttons
   * enum, whose POINTER_BUTTON_i the mouse constructor sets when mouse
   * button i is down.
   */
  const CORRECTED_LEFT_LINE := Flag("OF_MOUSE_BUTTON_LEFT", false, POINTER_BUTTON_LEFT)
  const CORRECTED_MIDDLE_LINE := Flag("OF_MOUSE_BUTTON_MIDDLE", false, POINTER_BUTTON_MIDDLE)
  const CORRECTED_RIGHT_LINE := Flag("OF_MOUSE_BUTTON_RIGHT", false, POINTER_BUTTON_RIGHT)

  /** toString with each mouse button tested by its mask rather than its index. */
  function SrcToStringCorrected(a: PointerEventArgs, fmt: Vec3 -> string): string
  {
    FirstLine(a, fmt)
    + TabEndlLine(a, CONTROL_LINE) + TabEndlLine(a, ALT_LINE) + TabEndlLine(a, SHIFT_LINE) + TabEndlLine(a, SUPER_LINE)
    + TabEndlLine(a, CORRECTED_LEFT_LINE) + TabEndlLine(a, CORRECTED_MIDDLE_LINE) + TabEndlLine(a, CORRECTED_RIGHT_LINE)
  }

  /**
   * In the corrected toString each button line appears exactly when that
   * button's mask is set, and with no modifier and no button mask set the
   * result is the first line alone.
   */
  lemma SrcToStringCorrectedButtons(a: PointerEventArgs, fmt: Vec3 -> string)
    ensures TabEndlLine(a, CORRECTED_LEFT_LINE) != "" <==> a.buttons & POINTER_BUTTON_LEFT != 0
    ensures TabEndlLine(a, CORRECTED_MIDDLE_LINE) != "" <==> a.buttons & POINTER_BUTTON_MIDDLE != 0
    ensures TabEndlLine(a, CORRECTED_RIGHT_LINE) != "" <==> a.buttons & POINTER_BUTTON_RIGHT != 0
    ensures a.modifiers & 0x1F00 == 0 && a.buttons & 0x111 == 0 ==> SrcToStringCorrected(a, fmt) == FirstLine(a, fmt)
  {
  }

  /**
   * For an event converted from the mouse, the corrected toString prints
   * the line of mouse button i, and exactly that text, precisely when
   * button i was down.
   */
  lemma CorrectedMouseButtonLines(e: MouseEvent, input: InputState, now: uint64, m: bv32, fmt: Vec3 -> string)
    ensures var a := FromMouse(e, input, now, m);
      && (TabEndlLine(a, CORRECTED_LEFT_LINE) ==
            if OF_MOUSE_BUTTON_LEFT in input.mouseButtonsPressed then TabEndl(CORRECTED_LEFT_LINE.name) else "")
      && (TabEndlLine(a, CORRECTED_MIDDLE_LINE) ==
            if OF_MOUSE_BUTTON_MIDDLE in input.mouseButtonsPressed then TabEndl(CORRECTED_MIDDLE_LINE.name) else "")
      && (TabEndlLine(a, CORRECTED_RIGHT_LINE) ==
            if OF_MOUSE_BUTTON_RIGHT in input.mouseButtonsPressed then TabEndl(CORRECTED_RIGHT_LINE.name) else "")
  {
    var a := FromMouse(e, input, now, m);
    assert a.buttons & POINTER_BUTTON_LEFT != 0 <==> OF_MOUSE_BUTTON_LEFT in input.mouseButtonsPressed;
    assert a.buttons & POINTER_BUTTON_MIDDLE != 0 <==> OF_MOUSE_BUTTON_MIDDLE in input.mouseButtonsPressed;
    assert a.buttons & POINTER_BUTTON_RIGHT != 0 <==> OF_MOUSE_BUTTON_RIGHT in input.mouseButtonsPressed;
  }

  /** With nothing that any test matches, the original toString is the first line alone. */
  lemma SrcToStringNothingSet(a: PointerEventArgs, fmt: Vec3 -> string)
    requires a.modifiers & 0x1F00 == 0 && a.buttons & 0x3 == 0
    ensures SrcToString(a, fmt) == FirstLine(a, fmt)
  {
  }
}
