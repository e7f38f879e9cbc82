/**
 * The interactive elements of `src/gui.py` and the manager that dispatches
 * events to them. Each element ignores every event while invisible or
 * disabled; otherwise it reacts as the shared protocols of `Widgets` say.
 * Drawing, fonts, labels and the cursor-blink timer are not modelled.
 */
module Gui {
  import opened Numbers
  import opened Lists
  import opened Widgets

  datatype ButtonState = ButtonState(visible: bool, enabled: bool, press: Press)
  datatype InputState = InputState(visible: bool, enabled: bool, active: bool, edit: Edit)
  datatype CheckboxState = CheckboxState(visible: bool, enabled: bool, check: Check)

  /** `Button.handle_event`. */
  function ButtonStep(rect: Rect, hasCallback: bool, s: ButtonState, e: Event): (r: (ButtonState, bool))
    ensures !s.visible || !s.enabled ==> r == (s, false)
    ensures r.0.visible == s.visible && r.0.enabled == s.enabled
    ensures s.visible && s.enabled ==> (r.0.press, r.1) == PressReact(rect, hasCallback, s.press, e)
  {
    if !s.visible || !s.enabled then (s, false)
    else
      var p := PressReact(rect, hasCallback, s.press, e);
      (s.(press := p.0), p.1)
  }

  /**
   * `InputField.handle_event`: a press activates the field exactly when it
   * is inside, and is consumed when the field is or was active; a key is
   * consumed, and edits the text, only while the field is active.
   */
  function InputStep(rect: Rect, maxLength: int, s: InputState, e: Event): (r: (InputState, bool))
    ensures !s.visible || !s.enabled ==> r == (s, false)
    ensures r.0.visible == s.visible && r.0.enabled == s.enabled
    ensures s.visible && s.enabled && e.MouseDown? ==>
      r.0 == s.(active := rect.Contains(e.pos)) && (r.1 <==> s.active || rect.Contains(e.pos))
    ensures s.visible && s.enabled && e.KeyDown? ==>
      (r.1 <==> s.active) && r.0 == if s.active then s.(edit := KeyEdit(s.edit, maxLength, e.key)) else s
    ensures e.MouseUp? || e.OtherEvent? ==> r == (s, false)
  {
    if !s.visible || !s.enabled then (s, false)
    else
      match e
      case MouseDown(pos) =>
        var wasActive := s.active;
        var active := rect.Contains(pos);
        (s.(active := active), active || wasActive)
      case KeyDown(key) =>
        if s.active then (s.(edit := KeyEdit(s.edit, maxLength, key)), true) else (s, false)
      case _ => (s, false)
  }

  /** `Checkbox.handle_event`. */
  function CheckboxStep(rect: Rect, hasCallback: bool, s: CheckboxState, e: Event): (r: (CheckboxState, bool))
    ensures !s.visible || !s.enabled ==> r == (s, false)
    ensures r.0.visible == s.visible && r.0.enabled == s.enabled
    ensures s.visible && s.enabled ==> (r.0.check, r.1) == CheckReact(rect, hasCallback, s.check, e)
  {
    if !s.visible || !s.enabled then (s, false)
    else
      var c := CheckReact(rect, hasCallback, s.check, e);
      (s.(check := c.0), c.1)
  }

  class Button {
    const rect: Rect
    const text: string
    const hasCallback: bool
    var visible: bool
    var enabled: bool
    var active: bool
    var pressed: bool
    var clicks: nat

    function State(): ButtonState
      reads this
    {
      ButtonState(visible, enabled, Press(pressed, clicks))
    }

    constructor (rect0: Rect, text0: string, hasCallback0: bool)
      ensures rect == rect0 && text == text0 && hasCallback == hasCallback0
      ensures State() == ButtonState(true, true, Press(false, 0)) && !active
    {
      rect, text, hasCallback := rect0, text0, hasCallback0;
      active, visible, enabled := false, true, true;
      pressed := false;
      clicks := 0;
    }

    method HandleEvent(e: Event) returns (consumed: bool)
      modifies this
      ensures (State(), consumed) == ButtonStep(rect, hasCallback, old(State()), e)
      ensures active == old(active)
    {
      if !visible || !enabled {
        return false;
      }
      match e {
        case MouseDown(pos) =>
          if rect.Contains(pos) {
            pressed := true;
            return true;
          }
        case MouseUp(pos) =>
          if pressed && rect.Contains(pos) {
            if hasCallback {
              clicks := clicks + 1;
            }
            pressed := false;
            return true;
          }
          pressed := false;
        case _ =>
      }
      return false;
    }
  }

  class InputField {
    const rect: Rect
    const placeholder: string
    const maxLength: int
    var visible: bool
    var enabled: bool
    var active: bool
    var text: string
    var cursorPos: nat

    function State(): InputState
      reads this
    {
      InputState(visible, enabled, active, Edit(text, cursorPos))
    }

    constructor (rect0: Rect, placeholder0: string, maxLength0: int)
      ensures rect == rect0 && placeholder == placeholder0 && maxLength == maxLength0
      ensures State() == InputState(true, true, false, Edit("", 0))
    {
      rect, placeholder, maxLength := rect0, placeholder0, maxLength0;
      visible, enabled, active := true, true, false;
      text, cursorPos := "", 0;
    }

    /** `_handle_key_event`, as written: the key is always consumed. */
    method HandleKeyEvent(key: Key) returns (consumed: bool)
      modifies this
      ensures Edit(text, cursorPos) == KeyEdit(old(Edit(text, cursorPos)), maxLength, key) && consumed
      ensures visible == old(visible) && enabled == old(enabled) && active == old(active)
    {
      match key {
        case Backspace =>
          if cursorPos > 0 {
            text := Take(text, cursorPos - 1) + Drop(text, cursorPos);
            cursorPos := cursorPos - 1;
          }
        case Delete =>
          if cursorPos < |text| {
            text := text[..cursorPos] + text[cursorPos + 1..];
          }
        case Left =>
          cursorPos := MaxInt(0, cursorPos - 1);
        case Right =>
          cursorPos := MinNat(|text|, cursorPos + 1);
        case Home =>
          cursorPos := 0;
        case End =>
          cursorPos := |text|;
        case Typed(typed) =>
          if |text| < maxLength {
            if IsPrintable(typed) {
              text := Take(text, cursorPos) + typed + Drop(text, cursorPos);
              cursorPos := cursorPos + 1;
            }
          }
      }
      consumed := true;
    }

    /** The key handling as evidently intended: a key that carries no single character leaves the field alone. */
    method HandleKeyEventChecked(key: Key) returns (consumed: bool)
      modifies this
      ensures Edit(text, cursorPos) == KeyEditChecked(old(Edit(text, cursorPos)), maxLength, key) && consumed
      ensures old(cursorPos <= |text|) ==> cursorPos <= |text|
      ensures old(|text| <= maxLength) ==> |text| <= maxLength
      ensures visible == old(visible) && enabled == old(enabled) && active == old(active)
    {
      KeyEditCheckedKeepsRange(Edit(text, cursorPos), maxLength, key);
      if key.Typed? && |key.unicode| != 1 {
        return true;
      }
      consumed := HandleKeyEvent(key);
    }

    method HandleEvent(e: Event) returns (consumed: bool)
      modifies this
      ensures (State(), consumed) == InputStep(rect, maxLength, old(State()), e)
    {
      if !visible || !enabled {
        return false;
      }
      match e {
        case MouseDown(pos) =>
          var wasActive := active;
          active := rect.Contains(pos);
          return active || wasActive;
        case KeyDown(key) =>
          if active {
            consumed := HandleKeyEvent(key);
            return;
          }
        case _ =>
      }
      return false;
    }

    /** `set_text`: the text cut to `max_length` (Python slicing), the cursor at its end. */
    method SetText(text0: string)
      modifies this
      ensures text == SliceTo(text0, maxLength) && cursorPos == |text|
      ensures 0 <= maxLength ==> |text| <= maxLength && (|text0| <= maxLength ==> text == text0)
      ensures visible == old(visible) && enabled == old(enabled) && active == old(active)
    {
      text := SliceTo(text0, maxLength);
      cursorPos := |text|;
    }

    method Clear()
      modifies this
      ensures text == "" && cursorPos == 0
      ensures visible == old(visible) && enabled == old(enabled) && active == old(active)
    {
      text := "";
      cursorPos := 0;
    }
  }

  class Checkbox {
    const rect: Rect
    const text: string
    const hasCallback: bool
    var visible: bool
    var enabled: bool
    var active: bool
    var checked: bool
    var reported: seq<bool>

    function State(): CheckboxState
      reads this
    {
      CheckboxState(visible, enabled, Check(checked, reported))
    }

    /** A square box of side `size`. */
    constructor (x: int, y: int, size: int, text0: string, checked0: bool, hasCallback0: bool)
      ensures rect == Rect(x, y, size, size) && text == text0 && hasCallback == hasCallback0
      ensures State() == CheckboxState(true, true, Check(checked0, []))
    {
      rect := Rect(x, y, size, size);
      text, hasCallback := text0, hasCallback0;
      visible, enabled, active := true, true, false;
      checked, reported := checked0, [];
    }

    method HandleEvent(e: Event) returns (consumed: bool)
      modifies this
      ensures (State(), consumed) == CheckboxStep(rect, hasCallback, old(State()), e)
      ensures active == old(active)
    {
      if !visible || !enabled {
        return false;
      }
      if e.MouseDown? && rect.Contains(e.pos) {
        checked := !checked;
        if hasCallback {
          reported := reported + [checked];
        }
        return true;
      }
      return false;
    }
  }

  /** An element registered with the manager. */
  datatype Element = ButtonEl(b: Button) | InputEl(f: InputField) | CheckboxEl(c: Checkbox) {
    function Ref(): object {
      match this
      case ButtonEl(b) => b
      case InputEl(f) => f
      case CheckboxEl(c) => c
    }

    function Snapshot(): ElementState
      reads Ref()
    {
      match this
      case ButtonEl(b) => ButtonSt(b.State())
      case InputEl(f) => InputSt(f.State())
      case CheckboxEl(c) => CheckboxSt(c.State())
    }

    /** This element's `handle_event` on a snapshot of its state. */
    function React(s: ElementState, e: Event): (r: (ElementState, bool))
    {
      match (this, s)
      case (ButtonEl(b), ButtonSt(st)) => var r := ButtonStep(b.rect, b.hasCallback, st, e); (ButtonSt(r.0), r.1)
      case (InputEl(f), InputSt(st)) => var r := InputStep(f.rect, f.maxLength, st, e); (InputSt(r.0), r.1)
      case (CheckboxEl(c), CheckboxSt(st)) => var r := CheckboxStep(c.rect, c.hasCallback, st, e); (CheckboxSt(r.0), r.1)
      case _ => (s, false)
    }
  }

  datatype ElementState = ButtonSt(button: ButtonState) | InputSt(input: InputState) | CheckboxSt(checkbox: CheckboxState)

  lemma DistinctRefs(a: Element, b: Element)
    requires a != b
    ensures a.Ref() != b.Ref()
  {
  }

  method HandleElement(el: Element, e: Event) returns (consumed: bool)
    modifies el.Ref()
    ensures (el.Snapshot(), consumed) == el.React(old(el.Snapshot()), e)
  {
    match el
    case ButtonEl(b) => consumed := b.HandleEvent(e);
    case InputEl(f) => consumed := f.HandleEvent(e);
    case CheckboxEl(c) => consumed := c.HandleEvent(e);
  }

  /**
   * `GUIManager.handle_event` on snapshots: each element in list order
   * reacts to the event, on its state as left by earlier entries (an
   * element listed twice reacts twice), until one consumes it.
   */
  function Dispatch(els: seq<Element>, st: map<Element, ElementState>, e: Event): (r: (map<Element, ElementState>, bool))
    requires forall el :: el in els ==> el in st
    ensures r.0.Keys == st.Keys
    ensures forall el :: el in st && el !in els ==> r.0[el] == st[el]
    decreases |els|
  {
    if els == [] then (st, false)
    else
      var el := els[0];
      var step := el.React(st[el], e);
      var st1 := st[el := step.0];
      if step.1 then (st1, true) else Dispatch(els[1..], st1, e)
  }

  /** When the first element consumes the event, no other element sees it. */
  lemma DispatchFirstWins(els: seq<Element>, st: map<Element, ElementState>, e: Event)
    requires forall el :: el in els ==> el in st
    requires 0 < |els| && els[0].React(st[els[0]], e).1
    ensures Dispatch(els, st, e).1
    ensures forall el :: el in st && el != els[0] ==> Dispatch(els, st, e).0[el] == st[el]
  {
  }

  /**
   * The element at index `i` consumes the event when it is offered, on its
   * state as the earlier entries left it: dispatch stops there, with that
   * element's new state and every other state as the earlier entries left it.
   */
  lemma {:induction false} DispatchStopsAt(els: seq<Element>, st: map<Element, ElementState>, e: Event, i: nat)
    requires forall el :: el in els ==> el in st
    requires i < |els|
    requires !Dispatch(els[..i], st, e).1
    requires els[i].React(Dispatch(els[..i], st, e).0[els[i]], e).1
    ensures var pre := Dispatch(els[..i], st, e).0;
      Dispatch(els, st, e) == (pre[els[i] := els[i].React(pre[els[i]], e).0], true)
    decreases i
  {
    if 0 < i {
      var el := els[0];
      var step := el.React(st[el], e);
      var st1 := st[el := step.0];
      assert els[..i][0] == el;
      assert els[..i][1..] == els[1..][..i - 1];
      assert !step.1;
      assert Dispatch(els[..i], st, e) == Dispatch(els[1..][..i - 1], st1, e);
      DispatchStopsAt(els[1..], st1, e, i - 1);
    }
  }

  /**
   * Entry `i` is offered the event, every earlier entry having declined it,
   * and consumes it on the state those entries left it in.
   */
  predicate ConsumedAt(els: seq<Element>, st: map<Element, ElementState>, e: Event, i: int)
    requires forall el :: el in els ==> el in st
  {
    0 <= i < |els| && !Dispatch(els[..i], st, e).1 && els[i].React(Dispatch(els[..i], st, e).0[els[i]], e).1
  }

  /** A consumed event was consumed by an entry that was offered it. */
  lemma {:induction false} ConsumerOf(els: seq<Element>, st: map<Element, ElementState>, e: Event) returns (i: nat)
    requires forall el :: el in els ==> el in st
    requires Dispatch(els, st, e).1
    ensures ConsumedAt(els, st, e, i)
    decreases |els|
  {
    var el := els[0];
    var step := el.React(st[el], e);
    var st1 := st[el := step.0];
    if step.1 {
      assert els[..0] == [];
      i := 0;
    } else {
      var j := ConsumerOf(els[1..], st1, e);
      assert els[..j + 1][0] == el;
      assert els[..j + 1][1..] == els[1..][..j];
      assert Dispatch(els[..j + 1], st, e) == Dispatch(els[1..][..j], st1, e);
      i := j + 1;
    }
  }

  /**
   * An event is consumed exactly when some listed element consumes it on the
   * state it has when offered, after every earlier entry declined it.
   */
  lemma DispatchConsumedBySome(els: seq<Element>, st: map<Element, ElementState>, e: Event)
    requires forall el :: el in els ==> el in st
    ensures Dispatch(els, st, e).1 <==> exists i :: ConsumedAt(els, st, e, i)
  {
    if exists i :: ConsumedAt(els, st, e, i) {
      var i :| ConsumedAt(els, st, e, i);
      DispatchStopsAt(els, st, e, i);
    }
    if Dispatch(els, st, e).1 {
      var i := ConsumerOf(els, st, e);
    }
  }

  class GuiManager {
    const width: int
    const height: int
    var elements: seq<Element>

    constructor (width0: int, height0: int)
      ensures width == width0 && height == height0 && elements == []
    {
      width, height := width0, height0;
      elements := [];
    }

    ghost function Footprint(): set<object>
      reads this
    {
      set el | el in elements :: el.Ref()
    }

    /** The state of every registered element. */
    function Snapshots(): (m: map<Element, ElementState>)
      reads this, Footprint()
      ensures m.Keys == set el | el in elements
    {
      map el | el in elements :: el.Snapshot()
    }

    method AddElement(el: Element)
      modifies this
      ensures elements == old(elements) + [el]
    {
      elements := elements + [el];
    }

    /** `remove_element`: the first occurrence only, and nothing when absent. */
    method RemoveElement(el: Element)
      modifies this
      ensures elements == RemoveFirst(old(elements), el)
    {
      if el in elements {
        elements := RemoveFirst(elements, el);
      }
    }

    method Clear()
      modifies this
      ensures elements == []
    {
      elements := [];
    }

    /** One listed element handles the event; the other elements keep their states. */
    method HandleOne(cur: Element, e: Event) returns (taken: bool)
      requires cur in elements
      modifies cur.Ref()
      ensures var step := cur.React(old(Snapshots())[cur], e);
        Snapshots() == old(Snapshots())[cur := step.0] && taken == step.1
    {
      assert cur.Ref() in Footprint();
      taken := HandleElement(cur, e);
      forall el | el in elements
        ensures Snapshots()[el] == old(Snapshots())[cur := cur.React(old(Snapshots())[cur], e).0][el]
      {
        if el != cur {
          DistinctRefs(el, cur);
          assert el.Snapshot() == old(el.Snapshot());
        }
      }
    }

    /** Every element reacts as `Dispatch` says, and the result is whether one consumed the event. */
    method HandleEvent(e: Event) returns (consumed: bool)
      modifies Footprint()
      ensures (Snapshots(), consumed) == Dispatch(elements, old(Snapshots()), e)
    {
      for i := 0 to |elements|
        invariant Dispatch(elements[i..], Snapshots(), e) == Dispatch(elements, old(Snapshots()), e)
      {
        var cur := elements[i];
        assert cur.Ref() in Footprint();
        var taken := HandleOne(cur, e);
        assert elements[i..][1..] == elements[i + 1..];
        if taken {
          return true;
        }
      }
      return false;
    }
  }
}
