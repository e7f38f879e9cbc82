/**
 * The element classes of the archived desktop version
 * (`archive/desktop-version/src/ui/gui_elements.py`). They follow the same
 * protocols as `src/gui.py` with two differences: there is no `enabled`
 * flag (only invisibility blocks events), and a press on the text field is
 * consumed exactly when it lands inside, whatever the field's previous
 * state. Key editing is the same code, with the same empty-`unicode` flaw.
 */
module GuiElements {
  import opened Numbers
  import opened Widgets
  import Gui

  datatype ButtonState = ButtonState(visible: bool, press: Press)
  datatype InputState = InputState(visible: bool, active: bool, edit: Edit)
  datatype CheckboxState = CheckboxState(visible: bool, check: Check)

  function ButtonStep(rect: Rect, hasCallback: bool, s: ButtonState, e: Event): (r: (ButtonState, bool))
    ensures !s.visible ==> r == (s, false)
    ensures r.0.visible == s.visible
    ensures s.visible ==> (r.0.press, r.1) == PressReact(rect, hasCallback, s.press, e)
  {
    if !s.visible then (s, false)
    else
      var p := PressReact(rect, hasCallback, s.press, e);
      (s.(press := p.0), p.1)
  }

  /** A press activates the field exactly when inside and is consumed exactly then; keys act only while active. */
  function InputStep(rect: Rect, maxLength: int, s: InputState, e: Event): (r: (InputState, bool))
    ensures !s.visible ==> r == (s, false)
    ensures r.0.visible == s.visible
    ensures s.visible && e.MouseDown? ==> r.0 == s.(active := rect.Contains(e.pos)) && (r.1 <==> rect.Contains(e.pos))
    ensures s.visible && e.KeyDown? ==>
      (r.1 <==> s.active) && r.0 == if s.active then s.(edit := KeyEdit(s.edit, maxLength, e.key)) else s
    ensures e.MouseUp? || e.OtherEvent? ==> r == (s, false)
  {
    if !s.visible then (s, false)
    else
      match e
      case MouseDown(pos) =>
        var active := rect.Contains(pos);
        (s.(active := active), active)
      case KeyDown(key) =>
        if s.active then (s.(edit := KeyEdit(s.edit, maxLength, key)), true) else (s, false)
      case _ => (s, false)
  }

  function CheckboxStep(rect: Rect, hasCallback: bool, s: CheckboxState, e: Event): (r: (CheckboxState, bool))
    ensures !s.visible ==> r == (s, false)
    ensures r.0.visible == s.visible
    ensures s.visible ==> (r.0.check, r.1) == CheckReact(rect, hasCallback, s.check, e)
  {
    if !s.visible then (s, false)
    else
      var c := CheckReact(rect, hasCallback, s.check, e);
      (s.(check := c.0), c.1)
  }

  /**
   * The two text fields agree on every event except a press outside a
   * field that was active: both deactivate it, but only the newer one
   * reports the press as consumed.
   */
  lemma InputVariantsDiffer(rect: Rect, maxLength: int, visible: bool, active: bool, ed: Edit, e: Event)
    ensures var older := InputStep(rect, maxLength, InputState(visible, active, ed), e);
      var newer := Gui.InputStep(rect, maxLength, Gui.InputState(visible, true, active, ed), e);
      && newer.0 == Gui.InputState(older.0.visible, true, older.0.active, older.0.edit)
      && (newer.1 != older.1 <==> visible && active && e.MouseDown? && !rect.Contains(e.pos))
  {
  }

  class Button {
    const rect: Rect
    const text: string
    const hasCallback: bool
    var visible: bool
    var active: bool
    var pressed: bool
    var clicks: nat

    function State(): ButtonState
      reads this
    {
      ButtonState(visible, Press(pressed, clicks))
    }

    constructor (rect0: Rect, text0: string, hasCallback0: bool)
      ensures rect == rect0 && text == text0 && hasCallback == hasCallback0
      ensures State() == ButtonState(true, Press(false, 0)) && !active
    {
      rect, text, hasCallback := rect0, text0, hasCallback0;
      visible, active := true, false;
      pressed, clicks := false, 0;
    }

    method HandleEvent(e: Event) returns (consumed: bool)
      modifies this
      ensures (State(), consumed) == ButtonStep(rect, hasCallback, old(State()), e)
      ensures active == old(active)
    {
      if !visible {
        return false;
      }
      match e {
        case MouseDown(pos) =>
          if rect.Contains(pos) {
            pressed := true;
            return true;
          }
        case MouseUp(pos) =>
          if pressed && rect.Contains(pos) {
            if hasCallback {
              clicks := clicks + 1;
            }
            pressed := false;
            return true;
          }
          pressed := false;
        case _ =>
      }
      return false;
    }
  }

  class InputField {
    const rect: Rect
    const placeholder: string
    const maxLength: int
    var visible: bool
    var active: bool
    var text: string
    var cursorPos: nat

    function State(): InputState
      reads this
    {
      InputState(visible, active, Edit(text, cursorPos))
    }

    constructor (rect0: Rect, placeholder0: string, maxLength0: int)
      ensures rect == rect0 && placeholder == placeholder0 && maxLength == maxLength0
      ensures State() == InputState(true, false, Edit("", 0))
    {
      rect, placeholder, maxLength := rect0, placeholder0, maxLength0;
      visible, active := true, false;
      text, cursorPos := "", 0;
    }

    /** `handle_event`, with the key editing written inline as in the source. */
    method HandleEvent(e: Event) returns (consumed: bool)
      modifies this
      ensures (State(), consumed) == InputStep(rect, maxLength, old(State()), e)
    {
      if !visible {
        return false;
      }
      match e {
        case MouseDown(pos) =>
          active := rect.Contains(pos);
          return active;
        case KeyDown(key) =>
          if active {
            match key {
              case Backspace =>
                if cursorPos > 0 {
                  text := Take(text, cursorPos - 1) + Drop(text, cursorPos);
                  cursorPos := cursorPos - 1;
                }
              case Delete =>
                if cursorPos < |text| {
                  text := text[..cursorPos] + text[cursorPos + 1..];
                }
              case Left =>
                cursorPos := MaxInt(0, cursorPos - 1);
              case Right =>
                cursorPos := MinNat(|text|, cursorPos + 1);
              case Home =>
                cursorPos := 0;
              case End =>
                cursorPos := |text|;
              case Typed(typed) =>
                if |text| < maxLength {
                  if IsPrintable(typed) {
                    text := Take(text, cursorPos) + typed + Drop(text, cursorPos);
                    cursorPos := cursorPos + 1;
                  }
                }
            }
            return true;
          }
        case _ =>
      }
      return false;
    }
  }

  class Checkbox {
    const rect: Rect
    const text: string
    const hasCallback: bool
    var visible: bool
    var active: bool
    var checked: bool
    var reported: seq<bool>

    function State(): CheckboxState
      reads this
    {
      CheckboxState(visible, Check(checked, reported))
    }

    constructor (x: int, y: int, size: int, text0: string, checked0: bool, hasCallback0: bool)
      ensures rect == Rect(x, y, size, size) && text == text0 && hasCallback == hasCallback0
      ensures State() == CheckboxState(true, Check(checked0, []))
    {
      rect := Rect(x, y, size, size);
      text, hasCallback := text0, hasCallback0;
      visible, active := true, false;
      checked, reported := checked0, [];
    }

    method HandleEvent(e: Event) returns (consumed: bool)
      modifies this
      ensures (State(), consumed) == CheckboxStep(rect, hasCallback, old(State()), e)
      ensures active == old(active)
    {
      if !visible {
        return false;
      }
      if e.MouseDown? && rect.Contains(e.pos) {
        checked := !checked;
        if hasCallback {
          reported := reported + [checked];
        }
        return true;
      }
      return false;
    }
  }
}
