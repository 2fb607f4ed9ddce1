/** TextField: a textarea with a label, a container class chosen by
    `isValid`, an error block and forwarding handlers. It has no state; every
    member is a function of the props. The random id used when no `inputId`
    is given is a parameter. */
module TextField {
  import opened Js
  import opened Props
  import ClassNames

  // CSS-module class names of the component (opaque, free of spaces).
  const InputFieldStyle: Value := Str("TextField.inputField")
  const BaseStyle: Value := Str("TextField.inputFieldBase")
  const ErrorStyle: Value := Str("TextField.inputFieldError")
  const SuccessStyle: Value := Str("TextField.inputFieldSuccess")
  const LabelStyle: Value := Str("TextField.label")
  const ErrorMessageStyle: Value := Str("TextField.errorMessageClassName")

  /** `errorMessageString`: nothing for a null or undefined `errorDetails`, the
      `message` of an object, and any other value as it is. */
  function ErrorMessage(errorDetails: Value): (r: Value)
    ensures IsNullish(errorDetails) ==> r == Null
    ensures (!IsNullish(errorDetails) && TypeOf(errorDetails) == "object") ==> r == OptGet(errorDetails, "message")
    ensures TypeOf(errorDetails) != "object" && !errorDetails.Undefined? ==> r == errorDetails
  {
    if IsNullish(errorDetails) then Null
    else if TypeOf(errorDetails) == "object" then
      GetSucceedsOnTruthy(errorDetails, "message");
      Get(errorDetails, "message").value
    else errorDetails
  }

  /** A message given directly and one given as `{ message }` read the same. */
  lemma MessageEitherWay(message: string)
    ensures ErrorMessage(Str(message)) == ErrorMessage(Record("message", Str(message))) == Str(message)
  {
  }

  /** The five computed class names; `theme` is `themeContext?.theme`. */
  datatype FieldClasses = FieldClasses(base: Value, error: Value, success: Value, labelClass: Value, errorMessage: Value)

  function Classes(baseClassName: Value, errorClassName: Value, successClassName: Value,
                   labelClassName: Value, errorMessageClassName: Value, theme: Value): (r: FieldClasses)
    ensures ThemedChoice(baseClassName, theme, "inputField", "baseClassName", BaseStyle, r.base)
    ensures ThemedChoice(errorClassName, theme, "inputField", "errorClassName", ErrorStyle, r.error)
    ensures ThemedChoice(successClassName, theme, "inputField", "successClassName", SuccessStyle, r.success)
    ensures ThemedChoice(labelClassName, theme, "inputField", "labelClassName", LabelStyle, r.labelClass)
    ensures ThemedChoice(errorMessageClassName, theme, "inputField", "errorMessageClassName",
                         ErrorMessageStyle, r.errorMessage)
  {
    FieldClasses(
      Themed(baseClassName, theme, "inputField", "baseClassName", BaseStyle),
      Themed(errorClassName, theme, "inputField", "errorClassName", ErrorStyle),
      Themed(successClassName, theme, "inputField", "successClassName", SuccessStyle),
      Themed(labelClassName, theme, "inputField", "labelClassName", LabelStyle),
      Themed(errorMessageClassName, theme, "inputField", "errorMessageClassName", ErrorMessageStyle))
  }

  /** Without props or theme every class is the CSS-module default. */
  lemma DefaultClasses()
    ensures Classes(Undefined, Undefined, Undefined, Undefined, Undefined, Undefined)
            == FieldClasses(BaseStyle, ErrorStyle, SuccessStyle, LabelStyle, ErrorMessageStyle)
  {
  }

  /** The class `isValid` selects: success only for exactly `true`, error only
      for exactly `false`, the base class for anything else. */
  function ValidityClass(isValid: Value, c: FieldClasses): (r: Value)
    ensures isValid == Bool(true) ==> r == c.success
    ensures isValid == Bool(false) ==> r == c.error
    ensures !isValid.Bool? ==> r == c.base
  {
    if isValid == Bool(true) then c.success
    else if isValid == Bool(false) then c.error
    else c.base
  }

  /** The container's class list: the module's class, the validity class,
      then the user's `className`. */
  function FieldClassName(isValid: Value, c: FieldClasses, className: Value): (r: Result<string>)
    ensures r.TypeError? <==> ValidityClass(isValid, c).Null? || className.Null?
  {
    assert ClassNames.HasNull([InputFieldStyle, ValidityClass(isValid, c), className])
       <==> ValidityClass(isValid, c).Null? || className.Null? by {
      var args := [InputFieldStyle, ValidityClass(isValid, c), className];
      assert args[0] == InputFieldStyle && args[1] == ValidityClass(isValid, c) && args[2] == className;
    }
    ClassNames.ClassString([InputFieldStyle, ValidityClass(isValid, c), className])
  }

  /** With one-word classes the container's class list is, word by word, the
      module's class, the validity class and, last, `className`. */
  lemma FieldClassWords(isValid: Value, c: FieldClasses, className: Value)
    requires ClassNames.Word(c.base) && ClassNames.Word(c.error) && ClassNames.Word(c.success)
    requires ClassNames.Word(className) || className.Undefined?
    ensures FieldClassName(isValid, c, className).Ok?
    ensures ClassNames.Split(FieldClassName(isValid, c, className).value)
            == [InputFieldStyle.s, ValidityClass(isValid, c).s] + (if className.Undefined? then [] else [className.s])
  {
    var chosen := ValidityClass(isValid, c);
    StyleIsWord();
    ClassNames.SplitTwoWordsAndOptional(InputFieldStyle, chosen, className);
  }

  lemma StyleIsWord()
    ensures ClassNames.Word(InputFieldStyle)
  {
  }

  /** `computedInputId`: the `inputId` prop when truthy, else a generated id. */
  function InputId(inputId: Value, generated: Value): (r: Value)
    ensures Truthy(inputId) ==> r == inputId
    ensures !Truthy(inputId) ==> r == generated
  {
    Or(inputId, generated)
  }

  /** The label, rendered only for a truthy `label`, and the textarea. */
  datatype Targets = Targets(labelFor: Option<Value>, textareaId: Value)

  function LabelAndTextarea(labelProp: Value, inputId: Value, generated: Value): (r: Targets)
    ensures r.labelFor.Some? <==> Truthy(labelProp)
    ensures r.textareaId == InputId(inputId, generated)
  {
    Targets(if Truthy(labelProp) then Some(InputId(inputId, generated)) else None, InputId(inputId, generated))
  }

  /** A rendered label always points at the textarea. */
  lemma LabelTargetsTextarea(labelProp: Value, inputId: Value, generated: Value)
    requires Truthy(labelProp)
    ensures LabelAndTextarea(labelProp, inputId, generated).labelFor == Some(LabelAndTextarea(labelProp, inputId, generated).textareaId)
    ensures Truthy(inputId) ==> LabelAndTextarea(labelProp, inputId, generated).textareaId == inputId
  {
  }

  /** The calls a handler makes, in order. */
  datatype Call =
    | SetValue(value: Value)
    | OnInput(event: Value)
    | SetShowErrors
    | OnBlur(event: Value)

  /** The input handler: `setValue` with the textarea's value, then the
      user's `onInput` with the event. */
  function InputCalls(e: Value): (r: Result<seq<Call>>)
    ensures IsNullish(OptGet(e, "target")) || IsNullish(e) <==> r.TypeError?
    ensures r.Ok? ==> r.value == [SetValue(OptGet(OptGet(e, "target"), "value")), OnInput(e)]
  {
    match Get(e, "target")
    case TypeError => TypeError
    case Ok(target) =>
      match Get(target, "value")
      case TypeError => TypeError
      case Ok(v) => Ok([SetValue(v), OnInput(e)])
  }

  /** The blur handler: `setShowErrors()` first, then the user's `onBlur`. */
  function BlurCalls(e: Value): seq<Call> {
    [SetShowErrors, OnBlur(e)]
  }

  /** Each handler updates the parent before it calls the user's handler. */
  lemma ParentBeforeUser(e: Value)
    ensures InputCalls(e).Ok? ==> InputCalls(e).value[0].SetValue? && InputCalls(e).value[1] == OnInput(e)
    ensures BlurCalls(e)[0] == SetShowErrors && BlurCalls(e)[1] == OnBlur(e)
  {
  }

  /** The error block: rendered exactly when `showError` (default `true`) is
      truthy; its title, and its text, is the error message and its class the
      computed one. */
  datatype ErrorBlock = ErrorBlock(title: Value, className: Value)

  function ErrorBlockOf(showError: Value, errorDetails: Value, c: FieldClasses): (r: Option<ErrorBlock>)
    ensures r.Some? <==> Truthy(Default(showError, Bool(true)))
    ensures showError.Undefined? ==> r.Some?
    ensures r.Some? ==> r.value.title == ErrorMessage(errorDetails) && r.value.className == c.errorMessage
  {
    if Truthy(Default(showError, Bool(true))) then Some(ErrorBlock(ErrorMessage(errorDetails), c.errorMessage))
    else None
  }
}
