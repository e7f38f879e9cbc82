/**
 * What the two GUI element sets (`src/gui.py` and the archived
 * `src/ui/gui_elements.py`) share once pygame events are abstracted: the
 * rectangle hit test, the text field's key editing, the button's
 * press/release protocol and the checkbox toggle. Callbacks are foreign
 * code; the model records that they were invoked, and with what value.
 */
module Widgets {
  import opened Numbers

  datatype Point = Point(x: int, y: int)

  /** `pygame.Rect`; `collidepoint` includes the left and top edges and excludes the right and bottom ones. */
  datatype Rect = Rect(x: int, y: int, width: int, height: int) {
    predicate Contains(p: Point) {
      x <= p.x < x + width && y <= p.y < y + height
    }
  }

  /** The keys the text field tells apart; every other key arrives with its `unicode` text, possibly empty. */
  datatype Key = Backspace | Delete | Left | Right | Home | End | Typed(unicode: string)

  datatype Event = MouseDown(pos: Point) | MouseUp(pos: Point) | KeyDown(key: Key) | OtherEvent

  /** Printable characters, approximating Python's Unicode categories by excluding the C0 and C1 controls and the no-break space. */
  predicate PrintableChar(c: char) {
    ' ' <= c && !('\U{7f}' <= c <= '\U{a0}')
  }

  /** `str.isprintable()`: every character is printable, so the empty string is printable. */
  predicate IsPrintable(s: string) {
    forall i :: 0 <= i < |s| ==> PrintableChar(s[i])
  }

  /** Python's `s[:n]` and `s[n:]` for `n >= 0`: an index past the end is clamped. */
  function Take(s: string, n: nat): (r: string)
    ensures |r| == MinNat(n, |s|) && r == s[..|r|]
  {
    s[..MinNat(n, |s|)]
  }

  function Drop(s: string, n: nat): (r: string)
    ensures |r| == |s| - MinNat(n, |s|) && r == s[|s| - |r|..]
  {
    s[MinNat(n, |s|)..]
  }

  /** Python's `s[:n]` for any `n`: a negative `n` counts from the end. */
  function SliceTo(s: string, n: int): (r: string)
    ensures 0 <= n ==> |r| == MinNat(n, |s|)
    ensures n < 0 ==> |r| == MaxInt(0, |s| + n)
    ensures r == s[..|r|]
  {
    if n >= 0 then s[..MinNat(n, |s|)] else s[..MaxInt(0, |s| + n)]
  }

  /** The text being edited and the cursor position. */
  datatype Edit = Edit(text: string, cursor: nat) {
    /** The cursor sits between two characters, or at either end. */
    predicate InRange() {
      cursor <= |text|
    }
  }

  /**
   * The key handling of both text fields, as written: editing and
   * navigation keys, then any other key's `unicode` inserted at the cursor
   * when the text is shorter than `maxLength` and the `unicode` is
   * printable, the cursor moving one place right.
   */
  function KeyEdit(ed: Edit, maxLength: int, key: Key): (r: Edit)
  {
    var t, c := ed.text, ed.cursor;
    match key
    case Backspace => if c > 0 then Edit(Take(t, c - 1) + Drop(t, c), c - 1) else ed
    case Delete => if c < |t| then Edit(t[..c] + t[c + 1..], c) else ed
    case Left => Edit(t, MaxInt(0, c - 1))
    case Right => Edit(t, MinNat(|t|, c + 1))
    case Home => Edit(t, 0)
    case End => Edit(t, |t|)
    case Typed(u) => if |t| < maxLength && IsPrintable(u) then Edit(Take(t, c) + u + Drop(t, c), c + 1) else ed
  }

  /**
   * The key handling as evidently intended: only a single printable
   * character is inserted, so keys without text leave the field alone.
   */
  function KeyEditChecked(ed: Edit, maxLength: int, key: Key): (r: Edit)
  {
    match key
    case Typed(u) => if |u| == 1 then KeyEdit(ed, maxLength, key) else ed
    case _ => KeyEdit(ed, maxLength, key)
  }

  /** What each key does to a field whose cursor is in range. */
  lemma KeyEditEffect(ed: Edit, maxLength: int, key: Key)
    requires ed.InRange()
    ensures var t, c, r := ed.text, ed.cursor, KeyEdit(ed, maxLength, key);
      && (key == Backspace && c > 0 ==> r.text == t[..c - 1] + t[c..] && r.cursor == c - 1)
      && (key == Delete && c < |t| ==> r.text == t[..c] + t[c + 1..] && r.cursor == c)
      && (key == Left ==> r.text == t && r.cursor == if c == 0 then 0 else c - 1)
      && (key == Right ==> r.text == t && r.cursor == if c == |t| then c else c + 1)
      && (key == Home ==> r == Edit(t, 0))
      && (key == End ==> r == Edit(t, |t|))
      && (key.Typed? && |t| < maxLength && IsPrintable(key.unicode) ==> r.text == t[..c] + key.unicode + t[c..] && r.cursor == c + 1)
      && ((key == Backspace && c == 0) || (key == Delete && c == |t|) ==> r == ed)
      && (key.Typed? && (maxLength <= |t| || !IsPrintable(key.unicode)) ==> r == ed)
  {
  }

  /**
   * As written, every key except one that carries no text keeps the cursor
   * in range, and any key whose text is at most one character keeps the
   * length within `maxLength`.
   */
  lemma KeyEditKeepsRange(ed: Edit, maxLength: int, key: Key)
    ensures ed.InRange() && key != Typed("") ==> KeyEdit(ed, maxLength, key).InRange()
    ensures |ed.text| <= maxLength && (key.Typed? ==> |key.unicode| <= 1) ==> |KeyEdit(ed, maxLength, key).text| <= maxLength
  {
  }

  /**
   * The counterexample: in an empty field, a key without text (Shift, say)
   * passes `isprintable()` and moves the cursor past the end of the text.
   */
  lemma EmptyUnicodeMovesCursorPastEnd()
    ensures KeyEdit(Edit("", 0), 20, Typed("")) == Edit("", 1)
    ensures !KeyEdit(Edit("", 0), 20, Typed("")).InRange()
  {
    assert IsPrintable("");
  }

  /** As intended, every key keeps the cursor in range and the text within `maxLength`. */
  lemma KeyEditCheckedKeepsRange(ed: Edit, maxLength: int, key: Key)
    ensures ed.InRange() ==> KeyEditChecked(ed, maxLength, key).InRange()
    ensures |ed.text| <= maxLength ==> |KeyEditChecked(ed, maxLength, key).text| <= maxLength
  {
    KeyEditKeepsRange(ed, maxLength, key);
  }

  /** The intended handling differs from the written one only on keys without exactly one character of text. */
  lemma KeyEditCheckedAgrees(ed: Edit, maxLength: int, key: Key)
    requires !key.Typed? || |key.unicode| == 1
    ensures KeyEditChecked(ed, maxLength, key) == KeyEdit(ed, maxLength, key)
  {
  }

  /** A button's `pressed` flag and how many times its callback has run. */
  datatype Press = Press(pressed: bool, clicks: nat)

  /**
   * The press/release protocol shared by both buttons, once the element is
   * visible (and enabled): a press inside arms the button; a release inside
   * an armed button runs the callback, if any; every release disarms it.
   */
  function PressReact(rect: Rect, hasCallback: bool, p: Press, e: Event): (r: (Press, bool))
  {
    match e
    case MouseDown(pos) => if rect.Contains(pos) then (p.(pressed := true), true) else (p, false)
    case MouseUp(pos) =>
      if p.pressed && rect.Contains(pos) then (Press(false, if hasCallback then p.clicks + 1 else p.clicks), true)
      else (p.(pressed := false), false)
    case _ => (p, false)
  }

  /** The press protocol event by event. */
  lemma PressProtocol(rect: Rect, hasCallback: bool, p: Press, e: Event)
    ensures var r := PressReact(rect, hasCallback, p, e);
      && (e.MouseDown? ==> r.0.clicks == p.clicks && (r.1 <==> rect.Contains(e.pos)) && r.0.pressed == (p.pressed || rect.Contains(e.pos)))
      && (e.MouseUp? ==> !r.0.pressed && (r.1 <==> p.pressed && rect.Contains(e.pos))
                         && r.0.clicks == if r.1 && hasCallback then p.clicks + 1 else p.clicks)
      && (!e.MouseDown? && !e.MouseUp? ==> r == (p, false))
  {
  }

  /** A press and a release inside an idle button run the callback exactly once and leave it idle. */
  lemma ClickRunsCallbackOnce(rect: Rect, p: Press, down: Point, up: Point)
    requires rect.Contains(down) && rect.Contains(up)
    ensures var r1 := PressReact(rect, true, p, MouseDown(down));
      var r2 := PressReact(rect, true, r1.0, MouseUp(up));
      r1.1 && r2.1 && r2.0 == Press(false, p.clicks + 1)
  {
  }

  /** A release without a press inside never runs the callback. */
  lemma ReleaseWithoutPressDoesNothing(rect: Rect, hasCallback: bool, clicks: nat, up: Point)
    ensures PressReact(rect, hasCallback, Press(false, clicks), MouseUp(up)) == (Press(false, clicks), false)
  {
  }

  /** A checkbox's state and the values passed to its callback so far. */
  datatype Check = Check(checked: bool, reported: seq<bool>)

  /** The checkbox protocol shared by both checkboxes: a press inside flips it and reports the new value. */
  function CheckReact(rect: Rect, hasCallback: bool, c: Check, e: Event): (r: (Check, bool))
  {
    match e
    case MouseDown(pos) =>
      if rect.Contains(pos) then
        (Check(!c.checked, if hasCallback then c.reported + [!c.checked] else c.reported), true)
      else (c, false)
    case _ => (c, false)
  }

  /** A press inside flips the box and reports the new value; anything else changes nothing and is not consumed. */
  lemma CheckProtocol(rect: Rect, hasCallback: bool, c: Check, e: Event)
    ensures var r := CheckReact(rect, hasCallback, c, e);
      && (r.1 <==> e.MouseDown? && rect.Contains(e.pos))
      && (r.1 ==> r.0.checked == !c.checked && (hasCallback ==> r.0.reported == c.reported + [r.0.checked]))
      && (!r.1 ==> r.0 == c)
  {
  }

  /** Two presses inside restore the checkbox and report the flipped value, then the original one. */
  lemma CheckTwiceRestores(rect: Rect, c: Check, pos: Point)
    requires rect.Contains(pos)
    ensures var r1 := CheckReact(rect, true, c, MouseDown(pos));
      var r2 := CheckReact(rect, true, r1.0, MouseDown(pos));
      r2.0.checked == c.checked && r2.0.reported == c.reported + [!c.checked, c.checked]
  {
  }
}
