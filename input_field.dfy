/** InputField: a single-line input with a show/hide-password eye, a
    container class and a status icon chosen by `error.value`, and the
    validation flags its handlers pass to the parent's `setValue`. The eye
    is the only state: the input's `type`, the eye icon and whether the eye
    is visible. CSS-module class names and icon elements are opaque. */
module InputField {
  import opened Js
  import opened Props
  import ClassNames

  // CSS-module class names of the component (opaque, free of spaces).
  const InputFieldStyle: Value := Str("InputField.inputField")
  const ContainerStyle: Value := Str("InputField.inputFieldContainer")
  const ContainerErrorStyle: Value := Str("InputField.inputFieldContainerError")
  const ContainerEmptyStyle: Value := Str("InputField.inputFieldContainerEmpty")
  const InputStyle: Value := Str("InputField.input")
  const InputArrowsStyle: Value := Str("InputField.inputArrows")
  // The default eye icons.
  const EyeIcon: Value := Elem("HiOutlineEye")
  const EyeOffIcon: Value := Elem("HiOutlineEyeOff")

  const Password: Value := Str("password")
  const Text: Value := Str("text")

  // ---------------------------------------------------------------------------
  // The eye

  /** `showPasswordIconVisibility`, defaulting to `type === "password"`. */
  function EyeFlag(fieldType: Value, showPasswordIconVisibility: Value): (r: Value)
    ensures showPasswordIconVisibility.Undefined? ==> r == Bool(fieldType == Password)
    ensures !showPasswordIconVisibility.Undefined? ==> r == showPasswordIconVisibility
  {
    Default(showPasswordIconVisibility, Bool(fieldType == Password))
  }

  /** The mouse handlers act only on a password field whose flag is exactly
      `true`; when the flag is omitted every password field qualifies. */
  predicate EyeAllowed(fieldType: Value, showPasswordIconVisibility: Value)
    ensures EyeAllowed(fieldType, showPasswordIconVisibility) <==>
      fieldType == Password && (showPasswordIconVisibility.Undefined? || showPasswordIconVisibility == Bool(true))
  {
    fieldType == Password && EyeFlag(fieldType, showPasswordIconVisibility) == Bool(true)
  }

  /** A truthy flag other than `true` does not show the eye. */
  lemma TruthyFlagIsNotEnough()
    ensures !EyeAllowed(Password, Num(1))
    ensures !EyeAllowed(Text, Undefined) && !EyeAllowed(Text, Bool(true))
  {
  }

  datatype EyeState = EyeState(inputType: Value, eyeIcon: Value, eyeVisible: bool)

  /** The initial state: the input has the `type` prop and the eye is hidden. */
  function InitEye(fieldType: Value, showPasswordIcon: Value): (r: EyeState)
    ensures r.inputType == fieldType && r.eyeIcon == showPasswordIcon && !r.eyeVisible
  {
    EyeState(fieldType, showPasswordIcon, false)
  }

  function AfterMouseOver(s: EyeState, fieldType: Value, flag: Value): (r: EyeState)
    ensures r.inputType == s.inputType && r.eyeIcon == s.eyeIcon
    ensures r.eyeVisible == (s.eyeVisible || EyeAllowed(fieldType, flag))
  {
    if EyeAllowed(fieldType, flag) then s.(eyeVisible := true) else s
  }

  function AfterMouseLeave(s: EyeState, fieldType: Value, flag: Value): (r: EyeState)
    ensures r.inputType == s.inputType && r.eyeIcon == s.eyeIcon
    ensures r.eyeVisible == (s.eyeVisible && !EyeAllowed(fieldType, flag))
  {
    if EyeAllowed(fieldType, flag) then s.(eyeVisible := false) else s
  }

  /** The eye's click handler: a password input becomes a text input showing
      the "off" icon, anything else becomes a password input. */
  function AfterEyeClick(s: EyeState, showPasswordIcon: Value, showPasswordIconOff: Value): (r: EyeState)
    ensures r.eyeVisible == s.eyeVisible
    ensures s.inputType == Password ==> r.inputType == Text && r.eyeIcon == showPasswordIconOff
    ensures s.inputType != Password ==> r.inputType == Password && r.eyeIcon == showPasswordIcon
  {
    if s.inputType == Password then s.(inputType := Text, eyeIcon := showPasswordIconOff)
    else s.(inputType := Password, eyeIcon := showPasswordIcon)
  }

  /** The eye is visible only on a field whose mouse handlers may show it. */
  predicate EyeValid(s: EyeState, fieldType: Value, flag: Value) {
    s.eyeVisible ==> EyeAllowed(fieldType, flag)
  }

  /** The icon matches the input's type: the plain eye over a password, the
      crossed eye over revealed text. */
  predicate IconMatches(s: EyeState, showPasswordIcon: Value, showPasswordIconOff: Value) {
    && (s.inputType == Password ==> s.eyeIcon == showPasswordIcon)
    && (s.inputType == Text ==> s.eyeIcon == showPasswordIconOff)
  }

  /** Every handler keeps both the visibility invariant and the icon agreement. */
  lemma EyeHandlersKeepInvariants(s: EyeState, fieldType: Value, flag: Value,
                                  showPasswordIcon: Value, showPasswordIconOff: Value)
    requires EyeValid(s, fieldType, flag) && IconMatches(s, showPasswordIcon, showPasswordIconOff)
    ensures EyeValid(AfterMouseOver(s, fieldType, flag), fieldType, flag)
    ensures EyeValid(AfterMouseLeave(s, fieldType, flag), fieldType, flag)
    ensures EyeValid(AfterEyeClick(s, showPasswordIcon, showPasswordIconOff), fieldType, flag)
    ensures IconMatches(AfterEyeClick(s, showPasswordIcon, showPasswordIconOff), showPasswordIcon, showPasswordIconOff)
    ensures IconMatches(AfterMouseOver(s, fieldType, flag), showPasswordIcon, showPasswordIconOff)
    ensures IconMatches(AfterMouseLeave(s, fieldType, flag), showPasswordIcon, showPasswordIconOff)
  {
  }

  /** The first state of every field satisfies the visibility invariant, and
      that of a password field the icon agreement. */
  lemma InitEyeValid(fieldType: Value, flag: Value, showPasswordIcon: Value, showPasswordIconOff: Value)
    ensures EyeValid(InitEye(fieldType, showPasswordIcon), fieldType, flag)
    ensures fieldType == Password ==> IconMatches(InitEye(fieldType, showPasswordIcon), showPasswordIcon, showPasswordIconOff)
  {
  }

  /** Two clicks on the eye of a password field restore its state, and two
      clicks on any field whose icon matches its type are the identity. */
  lemma EyeClickTwice(s: EyeState, showPasswordIcon: Value, showPasswordIconOff: Value)
    requires s.inputType == Password || s.inputType == Text
    requires IconMatches(s, showPasswordIcon, showPasswordIconOff)
    ensures AfterEyeClick(AfterEyeClick(s, showPasswordIcon, showPasswordIconOff),
                          showPasswordIcon, showPasswordIconOff) == s
  {
  }

  /** A field of another type is turned into a password field by the first
      click and then alternates between text and password. */
  lemma EyeClickOnOtherType(s: EyeState, showPasswordIcon: Value, showPasswordIconOff: Value)
    requires s.inputType != Password
    ensures var once := AfterEyeClick(s, showPasswordIcon, showPasswordIconOff);
      && once.inputType == Password
      && AfterEyeClick(once, showPasswordIcon, showPasswordIconOff).inputType == Text
  {
  }

  /** The component's eye state. */
  class Field {
    const fieldType: Value
    const flag: Value
    const showPasswordIcon: Value
    const showPasswordIconOff: Value
    var inputType: Value
    var eyeIcon: Value
    var eyeVisible: bool

    function State(): EyeState
      reads this
    {
      EyeState(inputType, eyeIcon, eyeVisible)
    }

    predicate Valid()
      reads this
    {
      && EyeValid(State(), fieldType, flag)
      && (fieldType == Password ==> IconMatches(State(), showPasswordIcon, showPasswordIconOff))
    }

    /** `showPasswordIcon` defaults to the plain eye, `showPasswordIconOff`
        to the crossed eye. */
    constructor (fieldType: Value, showPasswordIconVisibility: Value,
                 showPasswordIcon: Value, showPasswordIconOff: Value)
      ensures this.fieldType == fieldType && flag == showPasswordIconVisibility
      ensures this.showPasswordIcon == Default(showPasswordIcon, EyeIcon)
      ensures this.showPasswordIconOff == Default(showPasswordIconOff, EyeOffIcon)
      ensures State() == InitEye(fieldType, this.showPasswordIcon)
      ensures Valid()
    {
      this.fieldType := fieldType;
      flag := showPasswordIconVisibility;
      this.showPasswordIcon := Default(showPasswordIcon, EyeIcon);
      this.showPasswordIconOff := Default(showPasswordIconOff, EyeOffIcon);
      inputType := fieldType;
      eyeIcon := Default(showPasswordIcon, EyeIcon);
      eyeVisible := false;
    }

    method MouseOver()
      requires Valid()
      modifies this
      ensures Valid()
      ensures State() == AfterMouseOver(old(State()), fieldType, flag)
    {
      if fieldType == Password && EyeFlag(fieldType, flag) == Bool(true) {
        eyeVisible := true;
      }
    }

    method MouseLeave()
      requires Valid()
      modifies this
      ensures Valid()
      ensures State() == AfterMouseLeave(old(State()), fieldType, flag)
    {
      if fieldType == Password && EyeFlag(fieldType, flag) == Bool(true) {
        eyeVisible := false;
      }
    }

    /** A click on the eye, which is on screen only while visible. */
    method ClickEye()
      requires Valid() && eyeVisible
      modifies this
      ensures Valid()
      ensures State() == AfterEyeClick(old(State()), showPasswordIcon, showPasswordIconOff)
    {
      if inputType == Password {
        inputType := Text;
        eyeIcon := showPasswordIconOff;
      } else {
        inputType := Password;
        eyeIcon := showPasswordIcon;
      }
    }
  }

  // ---------------------------------------------------------------------------
  // Container class and status icon

  /** `error.value`, with `error` defaulting to `{ value: null }`; an explicit
      `null` error throws. */
  function ErrorValue(error: Value): (r: Result<Value>)
    ensures error.Undefined? ==> r == Ok(Null)
    ensures error.Null? ==> r == TypeError
    ensures !IsNullish(error) ==> r == Ok(OptGet(error, "value"))
  {
    Get(Default(error, Record("value", Null)), "value")
  }

  /** The container class by `error.value`: `null` is the empty class, `false`
      the error class, anything else (`true`, `undefined`, a string) the
      normal class. */
  function Container(errorValue: Value, container: Value, containerError: Value, containerEmpty: Value): (r: Value)
    ensures errorValue.Null? ==> r == containerEmpty
    ensures errorValue == Bool(false) ==> r == containerError
    ensures (!errorValue.Null? && errorValue != Bool(false)) ==> r == container
  {
    if errorValue.Null? then containerEmpty
    else if errorValue == Bool(false) then containerError
    else container
  }

  /** The class string of the input's container: the module's class, the
      chosen container class (props default to the module's classes), then
      `className`. */
  function ContainerClass(error: Value, inputFieldContainer: Value, inputFieldContainerError: Value,
                          inputFieldContainerEmpty: Value, className: Value): (r: Result<string>)
    ensures ErrorValue(error).TypeError? ==> r.TypeError?
    ensures ErrorValue(error).Ok? ==>
      var chosen := Container(ErrorValue(error).value,
                              Default(inputFieldContainer, ContainerStyle),
                              Default(inputFieldContainerError, ContainerErrorStyle),
                              Default(inputFieldContainerEmpty, ContainerEmptyStyle));
      (r.TypeError? <==> chosen.Null? || className.Null?)
  {
    match ErrorValue(error)
    case TypeError => TypeError
    case Ok(v) =>
      var chosen := Container(v, Default(inputFieldContainer, ContainerStyle),
                              Default(inputFieldContainerError, ContainerErrorStyle),
                              Default(inputFieldContainerEmpty, ContainerEmptyStyle));
      ClassNames.EntriesOfThree(InputFieldStyle, chosen, className);
      ClassNames.ClassString([InputFieldStyle,
                              Container(v, Default(inputFieldContainer, ContainerStyle),
                                        Default(inputFieldContainerError, ContainerErrorStyle),
                                        Default(inputFieldContainerEmpty, ContainerEmptyStyle)),
                              className])
  }

  /** With one-word classes the container's class list is, word by word, the
      module's class, the class `error.value` selects, and `className`. */
  lemma ContainerClassWords(error: Value, container: Value, containerError: Value,
                            containerEmpty: Value, className: Value)
    requires ErrorValue(error).Ok?
    requires ClassNames.Word(Default(container, ContainerStyle)) && ClassNames.Word(Default(containerError, ContainerErrorStyle))
    requires ClassNames.Word(Default(containerEmpty, ContainerEmptyStyle))
    requires ClassNames.Word(className) || className.Undefined?
    ensures var chosen := Container(ErrorValue(error).value, Default(container, ContainerStyle),
                                    Default(containerError, ContainerErrorStyle),
                                    Default(containerEmpty, ContainerEmptyStyle));
      ContainerClass(error, container, containerError, containerEmpty, className).Ok?
      && ClassNames.Split(ContainerClass(error, container, containerError, containerEmpty, className).value)
         == [InputFieldStyle.s, chosen.s] + (if className.Undefined? then [] else [className.s])
  {
    var chosen := Container(ErrorValue(error).value, Default(container, ContainerStyle),
                            Default(containerError, ContainerErrorStyle),
                            Default(containerEmpty, ContainerEmptyStyle));
    StyleIsWord();
    ClassNames.SplitTwoWordsAndOptional(InputFieldStyle, chosen, className);
  }

  lemma StyleIsWord()
    ensures ClassNames.Word(InputFieldStyle)
  {
  }

  /** What the status slot shows. */
  datatype Status = EyeButton | SuccessIcon | ErrorIcon | Blank

  /** The visible eye takes the slot; otherwise the success icon needs
      `error.value === true`, a flag that is exactly `true` and a truthy
      `required`, and the error icon `error.value === false` and a flag that
      is exactly `true` (both flags default to `false`). */
  function StatusIcon(eyeVisible: bool, errorValue: Value, successIconVisibility: Value,
                      required: Value, errorIconVisibility: Value): (r: Status)
    ensures eyeVisible <==> r == EyeButton
    ensures r == SuccessIcon <==>
      !eyeVisible && errorValue == Bool(true) && successIconVisibility == Bool(true) && Truthy(required)
    ensures r == ErrorIcon <==>
      !eyeVisible && errorValue == Bool(false) && errorIconVisibility == Bool(true)
  {
    if eyeVisible then EyeButton
    else if errorValue == Bool(true) then
      if Default(successIconVisibility, Bool(false)) == Bool(true) && Truthy(required) then SuccessIcon else Blank
    else if errorValue == Bool(false) && Default(errorIconVisibility, Bool(false)) == Bool(true) then ErrorIcon
    else Blank
  }

  /** The status icon agrees with the container: the success icon appears only
      on the normal container and the error icon only on the error one. */
  lemma StatusAgreesWithContainer(eyeVisible: bool, errorValue: Value, successIconVisibility: Value,
                                  required: Value, errorIconVisibility: Value,
                                  container: Value, containerError: Value, containerEmpty: Value)
    ensures StatusIcon(eyeVisible, errorValue, successIconVisibility, required, errorIconVisibility) == SuccessIcon ==>
      Container(errorValue, container, containerError, containerEmpty) == container
    ensures StatusIcon(eyeVisible, errorValue, successIconVisibility, required, errorIconVisibility) == ErrorIcon ==>
      Container(errorValue, container, containerError, containerEmpty) == containerError
    ensures errorValue.Null? ==>
      StatusIcon(eyeVisible, errorValue, successIconVisibility, required, errorIconVisibility) in {EyeButton, Blank}
  {
  }

  /** The input's own class list: `Style.inputArrows` is added exactly when
      `showArrows` is `false`, its default. */
  function InputClass(showArrows: Value): (r: Result<string>)
    ensures Default(showArrows, Bool(false)) == Bool(false) ==> r == Ok(InputStyle.s + " " + InputArrowsStyle.s)
    ensures Default(showArrows, Bool(false)) != Bool(false) ==> r == Ok(InputStyle.s)
  {
    var arrows := if Default(showArrows, Bool(false)) == Bool(false) then InputArrowsStyle else Bool(false);
    assert [InputStyle, arrows][..1] == [InputStyle];
    assert [InputStyle][..0] == [];
    assert !ClassNames.HasNull([InputStyle, arrows]);
    if arrows.Str? then
      ClassNames.TwoStrings(InputStyle.s, arrows);
      ClassNames.ClassString([InputStyle, arrows])
    else
      assert ClassNames.Entries([InputStyle]) == [InputStyle.s];
      assert ClassNames.Entries([InputStyle, arrows]) == [InputStyle.s];
      ClassNames.ClassString([InputStyle, arrows])
  }

  // ---------------------------------------------------------------------------
  // Handlers

  /** `onInput`: the arguments passed to `setValue`; validation is skipped
      by passing `false` when `validationOnInput` (default `true`) is falsy. */
  function OnInput(validationOnInput: Value, v: Value): (r: seq<Value>)
    ensures |r| >= 1 && r[0] == v
    ensures Truthy(Default(validationOnInput, Bool(true))) <==> r == [v]
    ensures !Truthy(Default(validationOnInput, Bool(true))) <==> r == [v, Bool(false)]
  {
    if Truthy(Default(validationOnInput, Bool(true))) then [v] else [v, Bool(false)]
  }

  /** `onBlur`: `setValue(v)` exactly when `validationOnBlur` (default `true`)
      is truthy. */
  function OnBlur(validationOnBlur: Value, v: Value): (r: Option<seq<Value>>)
    ensures r.Some? <==> Truthy(Default(validationOnBlur, Bool(true)))
    ensures r.Some? ==> r.value == [v]
  {
    if Truthy(Default(validationOnBlur, Bool(true))) then Some([v]) else None
  }

  /** With the default flags both handlers validate; with validation on input
      switched off the blur still does. */
  lemma HandlersAgree(validationOnInput: Value, validationOnBlur: Value, v: Value)
    ensures validationOnBlur.Undefined? ==> OnBlur(validationOnBlur, v) == Some(OnInput(Undefined, v))
    ensures (OnBlur(validationOnBlur, v).Some? && Truthy(Default(validationOnInput, Bool(true))))
              ==> OnBlur(validationOnBlur, v).value == OnInput(validationOnInput, v)
  {
  }
}
