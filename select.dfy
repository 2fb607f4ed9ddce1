/** Select: a dropdown driven through an imperative handle. Its state is the
    `open` flag and the `position` ("", "top" or "bottom") the option panel
    was last placed at; `updateValue` hands the new value to the parent's
    `setValue`. Callback invocations are recorded in an append-only log.
    The panel's screen offset and the window height, which the component
    measures in the DOM, are parameters here. */
module Select {
  import opened Js
  import opened Props
  import ClassNames

  // CSS-module class names of the component (opaque).
  const SelectStyleClass: Value := Str("Select.select")
  const SelectClass: Value := Str("Select.selectClass")
  const SelectOpenedClass: Value := Str("Select.selectClassOpened")
  const SelectOptionClass: Value := Str("Select.selectClassOption")
  const SelectPlaceholderClass: Value := Str("Select.selectClassPlaceholder")

  /** The `maxHeightOpened` default. */
  const DefaultMaxHeight: int := 150
  /** The `labelKey` default. */
  const DefaultLabelKey: string := "label"

  function MaxHeight(maxHeightOpened: Option<int>): (r: int)
    ensures maxHeightOpened.None? ==> r == DefaultMaxHeight
    ensures maxHeightOpened.Some? ==> r == maxHeightOpened.value
  {
    match maxHeightOpened
    case None => DefaultMaxHeight
    case Some(h) => h
  }

  // ---------------------------------------------------------------------------
  // The open/position state machine

  /** One callback invocation. */
  datatype Event =
    | SelectOpen
    | SelectClose
    | SetValue(value: Value)
    | SelectChange(value: Value)

  datatype SelectState = SelectState(open: bool, position: string, log: seq<Event>)

  /** The positions the panel can have. */
  predicate ValidPosition(p: string) {
    p == "" || p == "top" || p == "bottom"
  }

  /** What every reachable state satisfies: a known position, and an open
      panel has been placed. */
  predicate Valid(s: SelectState) {
    ValidPosition(s.position) && (s.open ==> s.position != "")
  }

  /** The initial state: closed and not yet placed. */
  function Init(): (r: SelectState)
    ensures !r.open && r.position == "" && r.log == []
    ensures Valid(r)
  {
    SelectState(false, "", [])
  }

  /** `checkPosition(ref, open)`: an open panel stays where it is; a closed
      one is placed above the select exactly when the room below it,
      `windowHeight - top`, is less than `maxHeightOpened`. */
  function AfterCheckPosition(s: SelectState, top: int, windowHeight: int, maxHeight: int): (r: SelectState)
    ensures r.open == s.open && r.log == s.log
    ensures s.open ==> r.position == s.position
    ensures !s.open ==> (r.position == "top" <==> windowHeight - top < maxHeight)
    ensures !s.open ==> (r.position == "bottom" <==> windowHeight - top >= maxHeight)
    ensures !s.open ==> ValidPosition(r.position) && r.position != ""
  {
    if s.open then s
    else
      var afterTop := if windowHeight - top < maxHeight then s.(position := "top") else s;
      if windowHeight - top >= maxHeight then afterTop.(position := "bottom") else afterTop
  }

  /** `open()`: opens whatever the prior state and fires `onSelectOpen`. */
  function AfterOpen(s: SelectState, top: int, windowHeight: int, maxHeight: int): (r: SelectState)
    ensures r.open
    ensures r.position == AfterCheckPosition(s, top, windowHeight, maxHeight).position
    ensures r.log == s.log + [SelectOpen]
  {
    AfterCheckPosition(s, top, windowHeight, maxHeight).(open := true, log := s.log + [SelectOpen])
  }

  /** `close()`: closes whatever the prior state and fires `onSelectClose`. */
  function AfterClose(s: SelectState, top: int, windowHeight: int, maxHeight: int): (r: SelectState)
    ensures !r.open
    ensures r.position == AfterCheckPosition(s, top, windowHeight, maxHeight).position
    ensures r.log == s.log + [SelectClose]
  {
    AfterCheckPosition(s, top, windowHeight, maxHeight).(open := false, log := s.log + [SelectClose])
  }

  /** `toggle()`: flips `open`, firing `onSelectClose` when it was open and
      `onSelectOpen` otherwise. */
  function AfterToggle(s: SelectState, top: int, windowHeight: int, maxHeight: int): (r: SelectState)
    ensures r.open == !s.open
    ensures r.log == s.log + [if s.open then SelectClose else SelectOpen]
    ensures r.position == AfterCheckPosition(s, top, windowHeight, maxHeight).position
  {
    var placed := AfterCheckPosition(s, top, windowHeight, maxHeight);
    placed.(open := !s.open, log := s.log + [if s.open then SelectClose else SelectOpen])
  }

  /** `updateValue(v)`: `setValue(v)` then `onSelectChange(v)`, same value. */
  function AfterUpdateValue(s: SelectState, v: Value): (r: SelectState)
    ensures r.open == s.open && r.position == s.position
    ensures r.log == s.log + [SetValue(v), SelectChange(v)]
  {
    s.(log := s.log + [SetValue(v), SelectChange(v)])
  }

  /** A click on an option of the panel: `updateValue(option)`, after which
      the click bubbles to the head, whose handler toggles the select. */
  function AfterOptionClick(s: SelectState, v: Value, top: int, windowHeight: int, maxHeight: int): (r: SelectState)
    ensures r.open == !s.open
    ensures r.position == AfterCheckPosition(s, top, windowHeight, maxHeight).position
    ensures r.log == s.log + [SetValue(v), SelectChange(v), if s.open then SelectClose else SelectOpen]
  {
    AfterToggle(AfterUpdateValue(s, v), top, windowHeight, maxHeight)
  }

  /** Choosing an option of the open panel sets the value, reports the
      change, and then closes the select, in that order. */
  lemma OptionClickCloses(s: SelectState, v: Value, top: int, windowHeight: int, maxHeight: int)
    requires s.open
    ensures var r := AfterOptionClick(s, v, top, windowHeight, maxHeight);
      && !r.open && r.position == s.position
      && r.log[|s.log|..] == [SetValue(v), SelectChange(v), SelectClose]
  {
    var r := AfterOptionClick(s, v, top, windowHeight, maxHeight);
    assert r.log == s.log + [SetValue(v), SelectChange(v), SelectClose];
  }

  /** A toggle is an `open` on a closed select and a `close` on an open one. */
  lemma ToggleIsOpenOrClose(s: SelectState, top: int, windowHeight: int, maxHeight: int)
    ensures s.open ==> AfterToggle(s, top, windowHeight, maxHeight) == AfterClose(s, top, windowHeight, maxHeight)
    ensures !s.open ==> AfterToggle(s, top, windowHeight, maxHeight) == AfterOpen(s, top, windowHeight, maxHeight)
  {
  }

  /** Two toggles restore `open` and fire the open and close callbacks in
      turn; the panel keeps the place the first toggle chose. */
  lemma ToggleTwice(s: SelectState, top: int, windowHeight: int, maxHeight: int, top': int, windowHeight': int)
    ensures var r := AfterToggle(AfterToggle(s, top, windowHeight, maxHeight), top', windowHeight', maxHeight);
      && r.open == s.open
      && r.log == s.log + (if s.open then [SelectClose, SelectOpen] else [SelectOpen, SelectClose])
      && (!s.open ==> r.position == AfterCheckPosition(s, top, windowHeight, maxHeight).position)
  {
    var r1 := AfterToggle(s, top, windowHeight, maxHeight);
    assert r1.log + [if r1.open then SelectClose else SelectOpen]
        == s.log + (if s.open then [SelectClose, SelectOpen] else [SelectOpen, SelectClose]);
  }

  datatype Op =
    | OpenOp(top: int, windowHeight: int)
    | CloseOp(top: int, windowHeight: int)
    | ToggleOp(top: int, windowHeight: int)
    | UpdateValueOp(v: Value)
    | OptionClickOp(v: Value, top: int, windowHeight: int)

  function Step(s: SelectState, maxHeight: int, op: Op): SelectState {
    match op
    case OpenOp(t, h) => AfterOpen(s, t, h, maxHeight)
    case CloseOp(t, h) => AfterClose(s, t, h, maxHeight)
    case ToggleOp(t, h) => AfterToggle(s, t, h, maxHeight)
    case UpdateValueOp(v) => AfterUpdateValue(s, v)
    case OptionClickOp(v, t, h) => AfterOptionClick(s, v, t, h, maxHeight)
  }

  function Run(s: SelectState, maxHeight: int, ops: seq<Op>): SelectState
    decreases |ops|
  {
    if ops == [] then s else Run(Step(s, maxHeight, ops[0]), maxHeight, ops[1..])
  }

  /** Every handle call keeps the state valid. */
  lemma StepKeepsValid(s: SelectState, maxHeight: int, op: Op)
    requires Valid(s)
    ensures Valid(Step(s, maxHeight, op))
  {
  }

  /** From the initial state, any run of handle calls leaves a valid state:
      an open panel always has a position. */
  lemma {:induction false} RunKeepsValid(s: SelectState, maxHeight: int, ops: seq<Op>)
    requires Valid(s)
    ensures Valid(Run(s, maxHeight, ops))
    decreases |ops|
  {
    if ops != [] {
      StepKeepsValid(s, maxHeight, ops[0]);
      RunKeepsValid(Step(s, maxHeight, ops[0]), maxHeight, ops[1..]);
    }
  }

  /** The component instance behind the handle. */
  class Select {
    const maxHeight: int
    const value: Value
    var open: bool
    var position: string
    var log: seq<Event>

    function State(): SelectState
      reads this
    {
      SelectState(open, position, log)
    }

    constructor (maxHeightOpened: Option<int>, value: Value)
      ensures maxHeight == MaxHeight(maxHeightOpened) && this.value == value
      ensures State() == Init()
    {
      maxHeight := MaxHeight(maxHeightOpened);
      this.value := value;
      open := false;
      position := "";
      log := [];
    }

    /** `checkPosition(selectOpenedRef, open)` */
    method CheckPosition(top: int, windowHeight: int)
      modifies this
      ensures State() == AfterCheckPosition(old(State()), top, windowHeight, maxHeight)
    {
      if !open {
        if windowHeight - top < maxHeight {
          position := "top";
        }
        if windowHeight - top >= maxHeight {
          position := "bottom";
        }
      }
    }

    method Open(top: int, windowHeight: int)
      modifies this
      ensures State() == AfterOpen(old(State()), top, windowHeight, maxHeight)
    {
      CheckPosition(top, windowHeight);
      open := true;
      log := log + [SelectOpen];
    }

    method Close(top: int, windowHeight: int)
      modifies this
      ensures State() == AfterClose(old(State()), top, windowHeight, maxHeight)
    {
      CheckPosition(top, windowHeight);
      open := false;
      log := log + [SelectClose];
    }

    method Toggle(top: int, windowHeight: int)
      modifies this
      ensures State() == AfterToggle(old(State()), top, windowHeight, maxHeight)
    {
      var wasOpen := open;
      CheckPosition(top, windowHeight);
      if wasOpen {
        log := log + [SelectClose];
      } else {
        log := log + [SelectOpen];
      }
      open := !wasOpen;
    }

    /** `getValue()`: the `value` prop, whatever the dropdown's state. */
    method GetValue() returns (r: Value)
      ensures r == value
    {
      r := value;
    }

    method UpdateValue(v: Value)
      modifies this
      ensures State() == AfterUpdateValue(old(State()), v)
    {
      log := log + [SetValue(v)];
      log := log + [SelectChange(v)];
    }

    /** A click on an option: `updateValue`, then the head's `toggle`. */
    method OptionClick(v: Value, top: int, windowHeight: int)
      modifies this
      ensures State() == AfterOptionClick(old(State()), v, top, windowHeight, maxHeight)
    {
      UpdateValue(v);
      Toggle(top, windowHeight);
    }
  }

  // ---------------------------------------------------------------------------
  // Items, options and label

  /** `items || []`: `None` stands for a null or undefined `items` prop. */
  function ComputedItems(items: Option<seq<Value>>): (r: seq<Value>)
    ensures items.None? ==> r == []
    ensures items.Some? ==> r == items.value
  {
    match items
    case None => []
    case Some(xs) => xs
  }

  /** `computedItems.some(el => typeof el === "object")`; `null` counts. */
  function SomeObject(xs: seq<Value>): (r: bool)
    ensures r <==> exists i :: 0 <= i < |xs| && TypeOf(xs[i]) == "object"
    decreases |xs|
  {
    if xs == [] then false
    else TypeOf(xs[0]) == "object" || SomeObject(xs[1..])
  }

  function IsObject(items: Option<seq<Value>>): (r: bool)
    ensures r <==> exists i :: 0 <= i < |ComputedItems(items)| && TypeOf(ComputedItems(items)[i]) == "object"
    ensures items.None? ==> !r
  {
    SomeObject(ComputedItems(items))
  }

  /** `item.searchable !== false`; reading it throws on null and undefined. */
  function Searchable(item: Value): (r: Result<bool>)
    ensures r.TypeError? <==> IsNullish(item)
    ensures r.Ok? ==> (r.value <==> OptGet(item, "searchable") != Bool(false))
  {
    match Get(item, "searchable")
    case TypeError => TypeError
    case Ok(flag) => Ok(flag != Bool(false))
  }

  /** The items an object-mode list keeps. */
  predicate Kept(item: Value) {
    !IsNullish(item) && OptGet(item, "searchable") != Bool(false)
  }

  predicate HasNullish(xs: seq<Value>) {
    exists i :: 0 <= i < |xs| && IsNullish(xs[i])
  }

  /** `items.filter(item => item.searchable !== false)` */
  function FilterSearchable(xs: seq<Value>): (r: Result<seq<Value>>)
    ensures r.TypeError? <==> HasNullish(xs)
    ensures r.Ok? ==> |r.value| <= |xs|
    ensures r.Ok? ==> forall x :: x in r.value <==> x in xs && Kept(x)
    decreases |xs|
  {
    if xs == [] then Ok([])
    else
      match Searchable(xs[0])
      case TypeError => TypeError
      case Ok(keep) =>
        match FilterSearchable(xs[1..])
        case TypeError => TypeError
        case Ok(rest) => Ok(if keep then [xs[0]] + rest else rest)
  }

  /** The filter keeps the original order: it distributes over concatenation. */
  lemma {:induction false} FilterConcat(a: seq<Value>, b: seq<Value>)
    requires !HasNullish(a) && !HasNullish(b)
    ensures FilterSearchable(a + b).Ok?
    ensures FilterSearchable(a + b).value == FilterSearchable(a).value + FilterSearchable(b).value
    decreases |a|
  {
    if a == [] {
      assert a + b == b;
    } else {
      assert (a + b)[0] == a[0];
      assert (a + b)[1..] == a[1..] + b;
      assert !HasNullish(a[1..]) by {
        forall i | 0 <= i < |a[1..]| ensures !IsNullish(a[1..][i]) {
          assert a[1..][i] == a[i + 1];
        }
      }
      FilterConcat(a[1..], b);
    }
  }

  /** A list where nothing is marked unsearchable is rendered whole. */
  lemma {:induction false} FilterKeepsAll(xs: seq<Value>)
    requires forall i :: 0 <= i < |xs| ==> Kept(xs[i])
    ensures FilterSearchable(xs) == Ok(xs)
    decreases |xs|
  {
    if xs != [] {
      assert Kept(xs[0]);
      forall i | 0 <= i < |xs[1..]| ensures Kept(xs[1..][i]) {
        assert xs[1..][i] == xs[i + 1];
      }
      FilterKeepsAll(xs[1..]);
      assert [xs[0]] + xs[1..] == xs;
    }
  }

  /** The options rendered in the panel: in object mode the searchable items,
      otherwise every item. */
  function VisibleOptions(items: Option<seq<Value>>): (r: Result<seq<Value>>)
    ensures !IsObject(items) ==> r == Ok(ComputedItems(items))
    ensures IsObject(items) ==> (r.TypeError? <==> HasNullish(ComputedItems(items)))
    ensures (IsObject(items) && r.Ok?) ==> forall x :: x in r.value <==> x in ComputedItems(items) && Kept(x)
  {
    if IsObject(items) then FilterSearchable(ComputedItems(items)) else Ok(ComputedItems(items))
  }

  /** A `null` among object items makes rendering throw; an `undefined` item
      among strings is rendered as is. */
  lemma NullItemThrows()
    ensures VisibleOptions(Some([Null, Str("a")])).TypeError?
    ensures VisibleOptions(Some([Undefined, Str("a")])) == Ok([Undefined, Str("a")])
  {
    assert TypeOf([Null, Str("a")][0]) == "object";
    assert [Null, Str("a")][0].Null?;
    assert !SomeObject([Str("a")]);
    assert [Undefined, Str("a")][1..] == [Str("a")];
  }

  /** What the select's head shows: the rendered option for a truthy value,
      else the placeholder. `text` is what `renderOption` receives first,
      `full` the whole item in object mode. */
  datatype Shown =
    | OptionText(text: Value, full: Option<Value>)
    | PlaceholderText(placeholder: Value)

  function Label(value: Value, items: Option<seq<Value>>, labelKey: string, placeholder: Value): (r: Shown)
    ensures !Truthy(value) ==> r == PlaceholderText(placeholder)
    ensures (Truthy(value) && IsObject(items)) ==> r == OptionText(OptGet(value, labelKey), Some(value))
    ensures (Truthy(value) && !IsObject(items)) ==> r == OptionText(value, None)
  {
    if Truthy(value) then
      if IsObject(items) then
        GetSucceedsOnTruthy(value, labelKey);
        OptionText(Get(value, labelKey).value, Some(value))
      else OptionText(value, None)
    else PlaceholderText(placeholder)
  }

  /** The label an option of the panel shows. */
  function OptionLabel(option: Value, isObject: bool, labelKey: string): (r: Result<Shown>)
    ensures isObject ==> (r.TypeError? <==> IsNullish(option))
    ensures (isObject && !IsNullish(option)) ==> r == Ok(OptionText(OptGet(option, labelKey), Some(option)))
    ensures !isObject ==> r == Ok(OptionText(option, None))
  {
    if isObject then
      match Get(option, labelKey)
      case TypeError => TypeError
      case Ok(text) => Ok(OptionText(text, Some(option)))
    else Ok(OptionText(option, None))
  }

  /** The selected value is shown the way the panel shows it, for every
      truthy value. */
  lemma LabelMatchesOption(value: Value, items: Option<seq<Value>>, labelKey: string, placeholder: Value)
    requires Truthy(value)
    ensures OptionLabel(value, IsObject(items), labelKey) == Ok(Label(value, items, labelKey, placeholder))
  {
  }

  // ---------------------------------------------------------------------------
  // Theme classes

  /** The four computed class names. */
  datatype SelectClasses = SelectClasses(head: Value, panel: Value, option: Value, placeholder: Value)

  /** Each class name: the prop, else `theme.select.<key>`, else the
      CSS-module default. `theme` is `themeContext?.theme`. */
  function Classes(className: Value, classNameOpened: Value, classNameOption: Value,
                   classNamePlaceholder: Value, theme: Value): (r: SelectClasses)
    ensures ThemedChoice(className, theme, "select", "selectClassName", SelectClass, r.head)
    ensures ThemedChoice(classNameOpened, theme, "select", "selectOpenedClassName", SelectOpenedClass, r.panel)
    ensures ThemedChoice(classNameOption, theme, "select", "selectOptionClassName", SelectOptionClass, r.option)
    ensures ThemedChoice(classNamePlaceholder, theme, "select", "selectPlaceholderClassName",
                         SelectPlaceholderClass, r.placeholder)
  {
    SelectClasses(
      Themed(className, theme, "select", "selectClassName", SelectClass),
      Themed(classNameOpened, theme, "select", "selectOpenedClassName", SelectOpenedClass),
      Themed(classNameOption, theme, "select", "selectOptionClassName", SelectOptionClass),
      Themed(classNamePlaceholder, theme, "select", "selectPlaceholderClassName", SelectPlaceholderClass))
  }

  /** The head's class string: the module's `select` class, then the computed
      class name, which is never null. */
  function HeadClass(className: Value, theme: Value): (r: Result<string>)
    ensures r.Ok?
    ensures (Truthy(className) && className.Str?) ==> r == Ok(SelectStyleClass.s + " " + className.s)
    ensures (!Truthy(className) && !Truthy(OptGet(OptGet(theme, "select"), "selectClassName")))
              ==> r == Ok(SelectStyleClass.s + " " + SelectClass.s)
    ensures (!Truthy(className) && OptGet(OptGet(theme, "select"), "selectClassName").Str?
             && Truthy(OptGet(OptGet(theme, "select"), "selectClassName")))
              ==> r == Ok(SelectStyleClass.s + " " + OptGet(OptGet(theme, "select"), "selectClassName").s)
  {
    var c := Themed(className, theme, "select", "selectClassName", SelectClass);
    assert !ClassNames.HasNull([SelectStyleClass, c]) by {
      assert !c.Null?;
    }
    if c.Str? then
      ClassNames.TwoStrings(SelectStyleClass.s, c);
      ClassNames.ClassString([SelectStyleClass, c])
    else ClassNames.ClassString([SelectStyleClass, c])
  }
}
