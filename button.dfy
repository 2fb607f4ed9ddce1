/** Button: a clickable `div` whose click guard, cursor, class list and
    content are chosen from its props. The props keep their JavaScript
    values; their defaults (`basicClass = true`, `disabled = false`,
    `isLoading = false`) replace `undefined` only. */
module Button {
  import opened Js
  import ClassNames

  // CSS-module class names (opaque, free of spaces) and the default loader.
  const ButtonStyle: Value := Str("Button.buttonClass")
  const DisabledStyle: Value := Str("Button.buttonDisabled")
  const DefaultLoader: Value := Elem("TailSpin")

  /** A prop the button treats as a flag is `undefined` (its default) or a boolean. */
  predicate Flag(v: Value) {
    v.Undefined? || v.Bool?
  }

  /** The click handler calls `onClick` only when `disabled` and `isLoading`
      are exactly `false` and an `onClick` was given. */
  predicate ClickInvokes(disabled: Value, isLoading: Value, onClick: Value)
    ensures ClickInvokes(disabled, isLoading, onClick) <==>
      && (disabled.Undefined? || disabled == Bool(false))
      && (isLoading.Undefined? || isLoading == Bool(false))
      && Truthy(onClick)
  {
    Default(disabled, Bool(false)) == Bool(false) && Default(isLoading, Bool(false)) == Bool(false) && Truthy(onClick)
  }

  /** The cursor: "not-allowed" when `disabled || isLoading`, else "pointer",
      unless the user's `style`, spread afterwards, has its own `cursor`. */
  function Cursor(disabled: Value, isLoading: Value, style: Value): (r: Value)
    ensures (style.Obj? && "cursor" in style.fields) ==> r == style.fields["cursor"]
    ensures !(style.Obj? && "cursor" in style.fields) ==>
      r == (if Truthy(Default(disabled, Bool(false))) || Truthy(Default(isLoading, Bool(false)))
            then Str("not-allowed") else Str("pointer"))
  {
    var own := if Truthy(Or(Default(disabled, Bool(false)), Default(isLoading, Bool(false))))
               then Str("not-allowed") else Str("pointer");
    if style.Obj? && "cursor" in style.fields then style.fields["cursor"] else own
  }

  function HasOwnCursor(style: Value): bool {
    style.Obj? && "cursor" in style.fields
  }

  /** Whenever a click reaches `onClick` the button shows the pointer, and a
      "not-allowed" cursor means clicks are ignored (absent a user cursor). */
  lemma ClickMeansPointer(disabled: Value, isLoading: Value, onClick: Value, style: Value)
    requires !HasOwnCursor(style)
    ensures ClickInvokes(disabled, isLoading, onClick) ==> Cursor(disabled, isLoading, style) == Str("pointer")
    ensures Cursor(disabled, isLoading, style) == Str("not-allowed") ==> !ClickInvokes(disabled, isLoading, onClick)
  {
  }

  /** For flag props the converse holds too: the pointer is shown exactly when
      a given `onClick` would be called. */
  lemma PointerMeansClick(disabled: Value, isLoading: Value, onClick: Value, style: Value)
    requires !HasOwnCursor(style) && Flag(disabled) && Flag(isLoading) && Truthy(onClick)
    ensures Cursor(disabled, isLoading, style) == Str("pointer") <==> ClickInvokes(disabled, isLoading, onClick)
  {
  }

  /** The two rules differ for `disabled = null`: the cursor is the pointer, yet
      the click is ignored because `null !== false`. */
  lemma NullDisabledShowsPointerButIgnoresClicks(onClick: Value)
    requires Truthy(onClick)
    ensures Cursor(Null, Undefined, Undefined) == Str("pointer")
    ensures !ClickInvokes(Null, Undefined, onClick)
  {
  }

  /** The three `classNames` arguments: `basicClass && Style.buttonClass`,
      `basicClass && (disabled || isLoading) && Style.buttonDisabled`, and
      `className`. */
  function ClassArgs(basicClass: Value, disabled: Value, isLoading: Value, className: Value): (r: seq<Value>)
    ensures |r| == 3 && r[2] == className
    ensures Truthy(Default(basicClass, Bool(true))) ==> r[0] == ButtonStyle
    ensures (Truthy(Default(basicClass, Bool(true)))
             && Truthy(Or(Default(disabled, Bool(false)), Default(isLoading, Bool(false))))) ==> r[1] == DisabledStyle
  {
    var basic := Default(basicClass, Bool(true));
    var blocked := Or(Default(disabled, Bool(false)), Default(isLoading, Bool(false)));
    [And(basic, ButtonStyle), And(And(basic, blocked), DisabledStyle), className]
  }

  function ButtonClass(basicClass: Value, disabled: Value, isLoading: Value, className: Value): (r: Result<string>)
    ensures (Flag(basicClass) && Flag(disabled) && Flag(isLoading)) ==> (r.TypeError? <==> className.Null?)
  {
    var args := ClassArgs(basicClass, disabled, isLoading, className);
    assert (Flag(basicClass) && Flag(disabled) && Flag(isLoading))
             ==> (ClassNames.HasNull(args) <==> className.Null?);
    ClassNames.ClassString(args)
  }

  /** With flag props and a one-word `className`, the class list holds
      `buttonClass` iff `basicClass`, `buttonDisabled` iff `basicClass` and
      `disabled || isLoading`, and `className` last. */
  lemma ButtonClassWords(basicClass: Value, disabled: Value, isLoading: Value, className: Value)
    requires Flag(basicClass) && Flag(disabled) && Flag(isLoading)
    requires ClassNames.Word(className)
    ensures ButtonClass(basicClass, disabled, isLoading, className).Ok?
    ensures var basic := Default(basicClass, Bool(true)) == Bool(true);
            var blocked := disabled == Bool(true) || isLoading == Bool(true);
      ClassNames.Split(ButtonClass(basicClass, disabled, isLoading, className).value)
      == (if basic then [ButtonStyle.s] else [])
         + (if basic && blocked then [DisabledStyle.s] else [])
         + [className.s]
  {
    var args := ClassArgs(basicClass, disabled, isLoading, className);
    StylesAreWords();
    ClassNames.SplitThree(args[0], args[1], args[2]);
    assert args == [args[0], args[1], args[2]];
  }

  lemma StylesAreWords()
    ensures ClassNames.Word(ButtonStyle) && ClassNames.Word(DisabledStyle)
  {
  }

  /** An empty-string `basicClass` is falsy yet kept by `classNames`, so it
      yields two leading spaces. */
  lemma EmptyBasicClassKeepsSpaces()
    ensures ButtonClass(Str(""), Undefined, Undefined, Str("btn")) == Ok("  btn")
  {
    var args := ClassArgs(Str(""), Undefined, Undefined, Str("btn"));
    assert args == [Str(""), Str(""), Str("btn")];
    ClassNames.EntriesOfThree(Str(""), Str(""), Str("btn"));
    assert ["", "", "btn"][1..] == ["", "btn"];
    assert ["", "btn"][1..] == ["btn"];
    assert ClassNames.Join(["", "", "btn"]) == "" + " " + ("" + " " + "btn") == "  btn";
  }


  /** The loader (default a spinner) replaces the children exactly when
      `isLoading` is truthy. */
  function Content(isLoading: Value, loader: Value, children: Value): (r: Value)
    ensures Truthy(Default(isLoading, Bool(false))) ==> r == Default(loader, DefaultLoader)
    ensures !Truthy(Default(isLoading, Bool(false))) ==> r == children
  {
    if Truthy(Default(isLoading, Bool(false))) then Default(loader, DefaultLoader) else children
  }

  /** A button whose click would be ignored because it is loading shows the
      loader, and one that calls `onClick` shows its children. */
  lemma ContentMatchesGuard(disabled: Value, isLoading: Value, onClick: Value, loader: Value, children: Value)
    requires Flag(isLoading)
    ensures ClickInvokes(disabled, isLoading, onClick) ==> Content(isLoading, loader, children) == children
    ensures isLoading == Bool(true) ==> !ClickInvokes(disabled, isLoading, onClick)
                                        && Content(isLoading, loader, children) == Default(loader, DefaultLoader)
  {
  }
}
