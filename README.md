# ui-kit decision and state logic in Dafny

This project models the exact decision and state logic of a small React UI
kit, with the browser, React and timers stripped away. It covers:

- **classNames**: the class-string builder every component uses.
- **SimpleSlider**: the breakpoint lookup of slides per view, cyclic index
  navigation, the drag guards and the transition speed.
- **MagicModal**: the `hide`/`destroy` state machine behind the imperative
  handle, the option merge and the close-icon rule.
- **Select**: the `open`/`position` state machine behind the imperative
  handle, and the item, label and theme-class derivations.
- **InputField**: the show/hide-password eye, the container class and
  status icon selected by `error.value`, and the validation flags.
- **TextField** and **Button**: stateless derivations from props.

JavaScript values are modelled by `Js.Value`:

- `undefined`, `null`, booleans, integers, strings and objects (a map from
  keys to values).
- Opaque React elements and opaque function values.

`Js` also defines JavaScript truthiness, `||`, `&&` and `typeof`. It models
default parameters, which replace only `undefined`. A property read
`v[key]` throws a `TypeError` on `null` or `undefined`. It is modelled as a
`Result`, so thrown errors are outcomes rather than preconditions. `v?.key`
is its non-throwing form.

CSS-module class names are opaque strings without spaces, such as
`"Button.buttonClass"`. React nodes are opaque values.

One resolver, `Props.Themed`, covers the three-tier chain "explicit prop,
else the theme's entry, else the built-in default". Select, MagicModal and
TextField all use it.

MagicModal, Select and InputField's eye toggle each follow one pattern:

- A pure state datatype.
- Step functions `After…` that say what each handler does to that state.
- A class whose fields are the component's state. Each method returns
  exactly the state the matching step function gives.

SimpleSlider's state is the class `Slider.SliderState`, with no separate
datatype. Its methods' `ensures` give each new field directly, in terms of
the pure functions `Increase`, `Decrease` and `DragMove`. The properties of
the rotation and of the drag are lemmas about those functions.

Callbacks (`onModalOpen`, `onSelectClose`, and so on) are appends to an event
log held in the state. The properties are lemmas about the step functions and
about runs of them.

React state setters are treated as immediate assignments. Values read
during one render, such as the slider's `index` inside a drag handler or the
modal's merged options inside a handle call, are read once at the start of
the handler.

A few inputs come from the DOM or the environment, and are parameters:

- the viewport width;
- the select's top offset and the window height;
- the pointer's x coordinate;
- the drag threshold;
- whether the drag is disabled;
- the random id TextField generates.

Files:

| file | module | models |
|---|---|---|
| js.dfy | `Js` | JavaScript values and operators |
| props.dfy | `Props` | the theme resolver and the clipboard guard |
| class_names.dfy | `ClassNames` | `src/Utils/classNames.js` |
| slider.dfy | `Slider` | `src/Components/SimpleSlider/SimpleSlider.jsx` |
| magic_modal.dfy | `MagicModal` | `src/Components/MagicPopup/MagicModal.jsx` |
| select.dfy | `Select` | `src/Components/Select/Select.jsx` |
| input_field.dfy | `InputField` | `src/Components/InputField/InputField.jsx` |
| text_field.dfy | `TextField` | `src/Components/TextField/TextField.jsx` |
| button.dfy | `Button` | `src/Components/Button/Button.jsx` |

## Model

| member | source | states |
|---|---|---|
| Props.Resolve | src/Components/Select/Select.jsx:160-165 | The first truthy of explicit, themed and fallback wins; if none is truthy the fallback is returned, and the result is always one of the three |
| Props.ThemeEntry | src/Components/TextField/TextField.jsx:85-87 | The guarded chain `theme && theme?.section && theme?.section?.key` is truthy exactly when the entry is, and is the entry when truthy |
| Props.Themed | src/Components/TextField/TextField.jsx:83-88 | The resolved class is the explicit value if truthy, else the theme's `section.key` entry if truthy, else the default |
| Props.ResolveSkipsFalsy | src/Components/MagicPopup/MagicModal.jsx:92-97 | The result is falsy only if every candidate is; an explicit `""` resolves like an omitted prop |
| Props.ClipboardBlocked | src/Components/InputField/InputField.jsx:92-102 | Paste or copy is prevented exactly when its flag was passed and is falsy; the default `true` lets it through |
| ClassNames.ClassString | src/Utils/classNames.js:1-13 | The call throws exactly when some argument is `null`; otherwise it is the join of the kept entries |
| ClassNames.Build | src/Utils/classNames.js:2-12 | The loop that pushes each kept entry and then joins gives a `TypeError` exactly when an argument is `null`, and otherwise the entries of the arguments, in order, joined by single spaces |
| ClassNames.Join | src/Utils/classNames.js:12 | Joining nothing gives `""`, and joining one entry gives that entry |
| ClassNames.EntriesConcat | src/Utils/classNames.js:3-11 | The entries of concatenated argument lists are the concatenation of their entries, so argument order is kept |
| ClassNames.EntriesSnoc | src/Utils/classNames.js:3-11 | One more argument appends its own contribution to the entries |
| ClassNames.EntryOfOne | src/Utils/classNames.js:4-10 | A string is kept verbatim; an object contributes exactly when its `condition` is truthy, and what it contributes is its `class`; anything else contributes nothing |
| ClassNames.SkippedContributeNothing | src/Utils/classNames.js:4-12 | Arguments that are neither strings nor objects contribute nothing, and with no kept entry the result is `""` |
| ClassNames.EmptyStringDoublesSpace | src/Utils/classNames.js:4-5 | An empty string argument is kept, so `classNames("a", "", "b")` is `"a  b"` |
| ClassNames.TwoStrings | src/Utils/classNames.js:4-12 | Two string arguments give the two strings separated by one space |
| ClassNames.SplitJoin | src/Utils/classNames.js:12 | Splitting the joined string at spaces gives the entries back when none of them contains a space |
| ClassNames.SplitThree | src/Utils/classNames.js:2-12 | For three arguments that are each one word or skipped, the class string splits back into exactly those words, in order |
| Slider.SortedKeys | src/Components/SimpleSlider/SimpleSlider.jsx:19 | The numeric sort of the breakpoint keys is strictly increasing and holds exactly the keys |
| Slider.FirstAbove | src/Components/SimpleSlider/SimpleSlider.jsx:20-24 | The loop stops at the first key above the width: every earlier key is at most the width, and it returns the length when there is none |
| Slider.FoundLeastKeyAbove | src/Components/SimpleSlider/SimpleSlider.jsx:20-23 | The key the loop stops at is the one and only least key strictly above the width |
| Slider.NoKeyAbove | src/Components/SimpleSlider/SimpleSlider.jsx:19-28 | When the loop finds nothing, no key lies above the width, and no key is left only when the object is empty |
| Slider.PastEveryKey | src/Components/SimpleSlider/SimpleSlider.jsx:25-28 | Past every key the result is the largest key's `slidesPerView`, or 1 when that is falsy |
| Slider.LastIsLargestKey | src/Components/SimpleSlider/SimpleSlider.jsx:25-27 | The last sorted key is the one and only largest key |
| Slider.GetSlidePerView | src/Components/SimpleSlider/SimpleSlider.jsx:15-30 | There are three outcomes. Null breakpoints give `slidePerView` unchanged. Otherwise the result is the least key strictly above the width, so a key equal to the width is not chosen; when the width is at or above every key it is the largest key with 1 for a falsy count. An empty object throws |
| Slider.Increase | src/Components/SimpleSlider/SimpleSlider.jsx:32-38 | The next index is `index + 1` below `n - k` and 0 otherwise; from a valid index it is a step of a rotation modulo `n - k + 1`, and it stays in [0, n - k] |
| Slider.Decrease | src/Components/SimpleSlider/SimpleSlider.jsx:40-46 | The previous index is `index - 1` above 0 and `n - k` otherwise; from a valid index it is a backward step of the same rotation, and it stays in [0, n - k] |
| Slider.IncreaseDecreaseInverse | src/Components/SimpleSlider/SimpleSlider.jsx:32-46 | On [0, n - k] next and previous undo each other |
| Slider.DecreaseFromZero | src/Components/SimpleSlider/SimpleSlider.jsx:40-46 | Going back from 0 gives a negative index exactly when there are fewer children than slides per view |
| Slider.AdvanceCompose | src/Components/SimpleSlider/SimpleSlider.jsx:219-226 | a + b presses of next, or autoplay ticks, are a presses followed by b presses |
| Slider.AdvanceStraight | src/Components/SimpleSlider/SimpleSlider.jsx:32-38 | Below the last position each press moves exactly one slide on |
| Slider.FullCycle | src/Components/SimpleSlider/SimpleSlider.jsx:32-38 | n - k + 1 presses return to the starting index |
| Slider.AdvancePeriodic | src/Components/SimpleSlider/SimpleSlider.jsx:32-38 | The position after m presses depends on m only modulo n - k + 1 |
| Slider.DragMove | src/Components/SimpleSlider/SimpleSlider.jsx:143-160 | A drag move advances only below `n - k` past the threshold, goes back only above 0 past the negative threshold, and releases the pointer exactly when it moves. When both guards hold (a negative threshold) the later `decreaseIndex` wins and the index goes back. From a valid index it stays valid |
| Slider.DragNeverWraps | src/Components/SimpleSlider/SimpleSlider.jsx:148-160 | For at least as many children as slides per view, a drag never wraps: from the last position it never moves forward and reaches the first only when they are adjacent, and from the first it never moves back and reaches the last only when they are adjacent |
| Slider.TransitionSpeed | src/Components/SimpleSlider/SimpleSlider.jsx:196-200 | The autoplay speed is used when autoplay is on or dragging is disabled, and the animation duration otherwise |
| Slider.SliderState.constructor | src/Components/SimpleSlider/SimpleSlider.jsx:108-116 | The slider starts at index 0, not dragging, with offset 0, the animation on and no timeout pending |
| Slider.SliderState.Next | src/Components/SimpleSlider/SimpleSlider.jsx:336-343 | The next button moves the index by `increaseIndex` and keeps the index valid |
| Slider.SliderState.Prev | src/Components/SimpleSlider/SimpleSlider.jsx:328-335 | The previous button moves the index by `decreaseIndex` and keeps the index valid |
| Slider.SliderState.PointerDown | src/Components/SimpleSlider/SimpleSlider.jsx:233-251 | Pressing starts a drag at the pointer unless dragging is disabled, in which case nothing changes |
| Slider.SliderState.MouseMove | src/Components/SimpleSlider/SimpleSlider.jsx:140-162 | A desktop move acts only while the pointer is down and the animation is on, and then has the effect of `DragMove` |
| Slider.SliderState.TouchMove | src/Components/SimpleSlider/SimpleSlider.jsx:164-193 | A touch move acts only while the pointer is down and the animation is on. It has the effect of `DragMove`, switches the animation off, and schedules one re-enabling timeout per branch that applies |
| Slider.SliderState.AnimationTimeout | src/Components/SimpleSlider/SimpleSlider.jsx:178-180 | A pending timeout switches the animation back on |
| Slider.SliderState.MouseUp | src/Components/SimpleSlider/SimpleSlider.jsx:131-138 | Releasing the mouse always ends the drag |
| Slider.SliderState.PointerRelease | src/Components/SimpleSlider/SimpleSlider.jsx:257-267 | Touch end and mouse leave end the drag unless dragging is disabled |
| MagicModal.Merge | src/Components/MagicPopup/MagicModal.jsx:83-135 | Styles, events and the icon take the option when it is truthy, and the prop (with its default) otherwise. Class names try the options, then `theme.magicModal`, then the prop. `showCloseIcon` and `destroyBodyOnClose` take the option whenever it is defined |
| MagicModal.ExplicitFalseWins | src/Components/MagicPopup/MagicModal.jsx:127-134 | An explicit `false` option hides the close icon and keeps the body whatever the props say, while an empty class name option falls through like an absent one |
| MagicModal.Init | src/Components/MagicPopup/MagicModal.jsx:73-76 | Initially nothing is rendered, `isOpen()` is false, the body is the prop, the options are empty and nothing has fired |
| MagicModal.Display | src/Components/MagicPopup/MagicModal.jsx:199-210 | Something is rendered exactly when not destroyed, and its display is `"none"` exactly when hidden and `"block"` exactly when shown |
| MagicModal.AfterOpen | src/Components/MagicPopup/MagicModal.jsx:162-166 | `open()` renders and shows the modal, keeps body and options, and fires the merged `onModalOpen` once |
| MagicModal.AfterHide | src/Components/MagicPopup/MagicModal.jsx:167-170 | `hide()` hides the modal, leaves rendering, body and options as they were, and fires `onModalHide` |
| MagicModal.AfterUpdateBody | src/Components/MagicPopup/MagicModal.jsx:171-178 | `updateBody(b, o)` shows the modal with the new body and options, and fires `onModalOpen` then `onBodyUpdate` as merged from the previous options |
| MagicModal.AfterDestroy | src/Components/MagicPopup/MagicModal.jsx:179-183 | `destroy()` stops rendering and clears the body, leaves `isOpen()` as it was, and fires `onModalDestroy` |
| MagicModal.AfterCloseIconClick | src/Components/MagicPopup/MagicModal.jsx:231-239 | A close-icon click fires `onCloseIconClick` and `onModalHide` and then destroys the modal (firing `onModalDestroy`) when `destroyBodyOnClose` is truthy. Otherwise it hides the modal, firing `onModalHide` again |
| MagicModal.CloseWithoutDestroyHidesTwice | src/Components/MagicPopup/MagicModal.jsx:231-239 | Closing through the icon while keeping the body fires `onModalHide` exactly twice and `onModalDestroy` never |
| MagicModal.UpdateBodyKeepsLogOrder | src/Components/MagicPopup/MagicModal.jsx:171-178 | After `updateBody` every `onBodyUpdate` in the log still directly follows an `onModalOpen` |
| MagicModal.CloseIconKeepsLogOrder | src/Components/MagicPopup/MagicModal.jsx:231-239 | A close-icon click only appends to the log and keeps every `onBodyUpdate` directly after an `onModalOpen` |
| MagicModal.StepKeepsLogOrder | src/Components/MagicPopup/MagicModal.jsx:162-186 | Every handle call or click only appends to the log and keeps every `onBodyUpdate` directly after an `onModalOpen` |
| MagicModal.RunKeepsLogOrder | src/Components/MagicPopup/MagicModal.jsx:158-197 | Over any sequence of calls and clicks the log only grows and every `onBodyUpdate` directly follows an `onModalOpen` |
| MagicModal.DestroyAfterOpenStillOpen | src/Components/MagicPopup/MagicModal.jsx:179-186 | `open()` followed by `destroy()` renders nothing yet `isOpen()` is true |
| MagicModal.Modal.constructor | src/Components/MagicPopup/MagicModal.jsx:73-76 | A new modal is in the initial state |
| MagicModal.Modal.Open | src/Components/MagicPopup/MagicModal.jsx:162-166 | The method's new state is that of `AfterOpen` |
| MagicModal.Modal.Hide | src/Components/MagicPopup/MagicModal.jsx:167-170 | The method's new state is that of `AfterHide` |
| MagicModal.Modal.UpdateBody | src/Components/MagicPopup/MagicModal.jsx:171-178 | The method's new state is that of `AfterUpdateBody` |
| MagicModal.Modal.Destroy | src/Components/MagicPopup/MagicModal.jsx:179-183 | The method's new state is that of `AfterDestroy` |
| MagicModal.Modal.IsOpenNow | src/Components/MagicPopup/MagicModal.jsx:184-186 | `isOpen()` answers whether the modal is not hidden |
| MagicModal.Modal.ClickCloseIcon | src/Components/MagicPopup/MagicModal.jsx:231-239 | A click on a shown close icon gives the state of `AfterCloseIconClick`, going through the modal's own `destroy` or `hide` |
| Select.MaxHeight | src/Components/Select/Select.jsx:61 | `maxHeightOpened` defaults to 150 |
| Select.Init | src/Components/Select/Select.jsx:90-91 | The select starts closed with position `""` and is valid |
| Select.AfterCheckPosition | src/Components/Select/Select.jsx:107-124 | An open select keeps its position. A closed one is placed at `"top"` exactly when the room below is less than the maximum height and at `"bottom"` exactly otherwise |
| Select.AfterOpen | src/Components/Select/Select.jsx:128-132 | `open()` opens whatever the prior state, after the position check, and fires `onSelectOpen` |
| Select.AfterClose | src/Components/Select/Select.jsx:133-140 | `close()` closes whatever the prior state, after the position check, and fires `onSelectClose` |
| Select.AfterToggle | src/Components/Select/Select.jsx:141-151 | `toggle()` flips `open`, firing `onSelectClose` when it was open and `onSelectOpen` otherwise |
| Select.AfterUpdateValue | src/Components/Select/Select.jsx:153-156 | `updateValue(v)` calls `setValue(v)` and then `onSelectChange(v)` with the same value, changing nothing else |
| Select.AfterOptionClick | src/Components/Select/Select.jsx:190-292 | An option sits inside the head, so its click runs `updateValue(option)` and then bubbles into the head's `toggle()`: the value is set and reported, then `open` flips with its callback |
| Select.OptionClickCloses | src/Components/Select/Select.jsx:190-292 | Choosing an option of the open panel sets the value, fires `onSelectChange`, then closes the select and fires `onSelectClose`, in that order |
| Select.ToggleIsOpenOrClose | src/Components/Select/Select.jsx:128-151 | A toggle is exactly `close()` on an open select and `open()` on a closed one |
| Select.ToggleTwice | src/Components/Select/Select.jsx:141-151 | Two toggles restore `open`, fire the open and close callbacks in turn, and keep the position the first one chose |
| Select.StepKeepsValid | src/Components/Select/Select.jsx:107-290 | Every handle call and option click keeps the position one of `""`, `"top"` or `"bottom"`, and an open select always has a position |
| Select.RunKeepsValid | src/Components/Select/Select.jsx:127-290 | Any run of handle calls and option clicks keeps that invariant |
| Select.Select.constructor | src/Components/Select/Select.jsx:90-91 | A new select is in the initial state, with the defaulted maximum height |
| Select.Select.CheckPosition | src/Components/Select/Select.jsx:107-124 | The method's new state is that of `AfterCheckPosition` |
| Select.Select.Open | src/Components/Select/Select.jsx:128-132 | The method's new state is that of `AfterOpen` |
| Select.Select.Close | src/Components/Select/Select.jsx:133-140 | The method's new state is that of `AfterClose` |
| Select.Select.Toggle | src/Components/Select/Select.jsx:141-151 | The method's new state is that of `AfterToggle` |
| Select.Select.GetValue | src/Components/Select/Select.jsx:152 | `getValue()` returns the `value` prop |
| Select.Select.OptionClick | src/Components/Select/Select.jsx:270-289 | The method's new state, reached through the object's own `UpdateValue` and `Toggle`, is that of `AfterOptionClick` |
| Select.Select.UpdateValue | src/Components/Select/Select.jsx:153-156 | The method's new state is that of `AfterUpdateValue` |
| Select.ComputedItems | src/Components/Select/Select.jsx:94 | Null or undefined `items` become the empty list |
| Select.SomeObject | src/Components/Select/Select.jsx:95 | True exactly when some item has `typeof` `"object"`, `null` included |
| Select.IsObject | src/Components/Select/Select.jsx:94-95 | Object mode holds exactly when some computed item is an object, and never for missing items |
| Select.Searchable | src/Components/Select/Select.jsx:268 | An item's `searchable !== false` test throws exactly on null or undefined items |
| Select.FilterSearchable | src/Components/Select/Select.jsx:266-268 | The filter throws exactly when some item is null or undefined; otherwise it keeps exactly the items not marked `searchable: false`, and no more items than were given |
| Select.FilterConcat | src/Components/Select/Select.jsx:266-268 | The filter distributes over concatenation, so the kept items keep their original order |
| Select.FilterKeepsAll | src/Components/Select/Select.jsx:266-268 | When every item is searchable the list is rendered whole |
| Select.VisibleOptions | src/Components/Select/Select.jsx:266-290 | Outside object mode every item is rendered. In object mode rendering throws exactly on a null or undefined item, and otherwise shows exactly the searchable items |
| Select.NullItemThrows | src/Components/Select/Select.jsx:266-290 | A `null` turns the list into object mode and makes it throw, while an `undefined` among strings is rendered as it is |
| Select.Label | src/Components/Select/Select.jsx:225-235 | A falsy value shows the placeholder. A truthy one shows `value[labelKey]` and the whole value in object mode, and the value itself otherwise |
| Select.OptionLabel | src/Components/Select/Select.jsx:266-290 | A panel option shows `option[labelKey]` and the option in object mode, throwing on null or undefined options, and the option itself otherwise |
| Select.LabelMatchesOption | src/Components/Select/Select.jsx:225-290 | A truthy selected value is shown in the head exactly as the panel shows that option |
| Select.Classes | src/Components/Select/Select.jsx:160-186 | Each class name is the prop if truthy, else the theme's `select` entry if truthy, else the module's default class |
| Select.HeadClass | src/Components/Select/Select.jsx:160-207 | The head's class string never throws. It is the module's `select` class followed by the truthy string prop; without a truthy prop, by the theme's truthy string `select.selectClassName`; and by the default class when neither gives one |
| InputField.EyeFlag | src/Components/InputField/InputField.jsx:32 | `showPasswordIconVisibility` defaults to whether the type is `"password"` |
| InputField.EyeAllowed | src/Components/InputField/InputField.jsx:48-57 | The mouse handlers act exactly on a password field whose flag is omitted or exactly `true` |
| InputField.TruthyFlagIsNotEnough | src/Components/InputField/InputField.jsx:48-57 | A truthy flag other than `true` does not show the eye, and a non-password field never does |
| InputField.InitEye | src/Components/InputField/InputField.jsx:41-43 | The input starts with the `type` prop, the plain eye icon, and the eye hidden |
| InputField.AfterMouseOver | src/Components/InputField/InputField.jsx:48-52 | Hovering shows the eye exactly when allowed and changes nothing else |
| InputField.AfterMouseLeave | src/Components/InputField/InputField.jsx:53-57 | Leaving hides the eye exactly when allowed and changes nothing else |
| InputField.AfterEyeClick | src/Components/InputField/InputField.jsx:109-118 | A click on the eye turns `"password"` into `"text"` with the crossed icon, and anything else into `"password"` with the plain icon |
| InputField.EyeHandlersKeepInvariants | src/Components/InputField/InputField.jsx:48-118 | Every handler keeps two things: the eye is visible only where allowed, and the icon matches the input's type |
| InputField.InitEyeValid | src/Components/InputField/InputField.jsx:41-43 | The first state satisfies the visibility invariant, and on a password field the icon agreement |
| InputField.EyeClickTwice | src/Components/InputField/InputField.jsx:109-118 | Two clicks from a password or text field whose icon matches restore the state |
| InputField.EyeClickOnOtherType | src/Components/InputField/InputField.jsx:109-118 | A field of another type becomes a password field on the first click and a text field on the second |
| InputField.Field.constructor | src/Components/InputField/InputField.jsx:32-43 | A new field has the defaulted icons and the initial eye state, and satisfies both invariants |
| InputField.Field.MouseOver | src/Components/InputField/InputField.jsx:48-52 | The method's new state is that of `AfterMouseOver`, and the invariants hold |
| InputField.Field.MouseLeave | src/Components/InputField/InputField.jsx:53-57 | The method's new state is that of `AfterMouseLeave`, and the invariants hold |
| InputField.Field.ClickEye | src/Components/InputField/InputField.jsx:106-118 | A click on the visible eye gives the state of `AfterEyeClick`, and the invariants hold |
| InputField.ErrorValue | src/Components/InputField/InputField.jsx:19 | An omitted `error` reads as `{ value: null }`, an explicit `null` throws, and any other error gives its `value` |
| InputField.Container | src/Components/InputField/InputField.jsx:62-66 | `null` selects the empty class, `false` the error class, and anything else the normal class |
| InputField.ContainerClass | src/Components/InputField/InputField.jsx:61-68 | The container's class string throws when reading `error.value` throws; otherwise it throws exactly when the class `error.value` selects or `className` is `null`. Its words are stated by `ContainerClassWords` |
| InputField.ContainerClassWords | src/Components/InputField/InputField.jsx:61-68 | With one-word classes the container's class list is, word by word, the module's class, the selected class, and `className` if given |
| InputField.StatusIcon | src/Components/InputField/InputField.jsx:106-128 | The visible eye takes the slot. The success icon appears exactly for `error.value === true` with the flag exactly `true` and `required` truthy. The error icon appears exactly for `error.value === false` with its flag exactly `true` |
| InputField.StatusAgreesWithContainer | src/Components/InputField/InputField.jsx:61-128 | The success icon appears only on the normal container and the error icon only on the error container; a `null` value shows neither |
| InputField.InputClass | src/Components/InputField/InputField.jsx:73 | `inputArrows` is added to the input's class exactly when `showArrows` is `false`, its default |
| InputField.OnInput | src/Components/InputField/InputField.jsx:78-84 | `setValue(v)` is called when input validation is on (the default), and `setValue(v, false)` otherwise |
| InputField.OnBlur | src/Components/InputField/InputField.jsx:86-90 | `setValue(v)` is called on blur exactly when blur validation is on (the default) |
| InputField.HandlersAgree | src/Components/InputField/InputField.jsx:78-90 | With the default flags both handlers make the same call; a blur that validates calls `setValue` just as a validating input does |
| TextField.ErrorMessage | src/Components/TextField/TextField.jsx:76-81 | Null or undefined details give `null`, an object gives its `message`, and anything else is itself |
| TextField.MessageEitherWay | src/Components/TextField/TextField.jsx:76-81 | A message given directly and one given as `{ message }` read the same |
| TextField.Classes | src/Components/TextField/TextField.jsx:83-116 | Each class name is the prop if truthy, else the theme's `inputField` entry if truthy, else the module's default |
| TextField.DefaultClasses | src/Components/TextField/TextField.jsx:83-116 | Without props or theme every class is the module's default |
| TextField.ValidityClass | src/Components/TextField/TextField.jsx:128-132 | Exactly `true` selects the success class, exactly `false` the error class, and anything else the base class |
| TextField.FieldClassName | src/Components/TextField/TextField.jsx:126-134 | The container's class string throws exactly when the selected class or `className` is `null` |
| TextField.FieldClassWords | src/Components/TextField/TextField.jsx:126-134 | With one-word classes the container's class list is, word by word, the module's class, the class `isValid` selects, and `className` last if given |
| TextField.InputId | src/Components/TextField/TextField.jsx:72 | A truthy `inputId` is used, and otherwise the generated id |
| TextField.LabelAndTextarea | src/Components/TextField/TextField.jsx:120-143 | A label is rendered exactly for a truthy `label`, and the textarea's id is the computed id |
| TextField.LabelTargetsTextarea | src/Components/TextField/TextField.jsx:120-143 | A rendered label points at the textarea, and a truthy `inputId` is the id of both |
| TextField.InputCalls | src/Components/TextField/TextField.jsx:149-152 | The input handler throws exactly when the event or its target is missing, and otherwise calls `setValue` with the target's value and then `onInput` with the event |
| TextField.ParentBeforeUser | src/Components/TextField/TextField.jsx:149-158 | Both handlers update the parent before they call the user's handler: `InputCalls` gives `setValue` then `onInput`, and the blur handler `BlurCalls` gives `setShowErrors` then `onBlur` |
| TextField.ErrorBlockOf | src/Components/TextField/TextField.jsx:174-181 | The error block is rendered exactly when `showError` (default `true`) is truthy, with the error message as title and the computed class |
| Button.ClickInvokes | src/Components/Button/Button.jsx:33-39 | `onClick` is called exactly when `disabled` and `isLoading` are omitted or exactly `false` and `onClick` is given |
| Button.Cursor | src/Components/Button/Button.jsx:24-27 | A `cursor` in the user's style wins; otherwise the cursor is `"not-allowed"` when `disabled` or `isLoading` is truthy and `"pointer"` otherwise |
| Button.ClickMeansPointer | src/Components/Button/Button.jsx:24-39 | Without a user cursor a button whose click reaches `onClick` shows the pointer, and a "not-allowed" button ignores clicks |
| Button.PointerMeansClick | src/Components/Button/Button.jsx:24-39 | For boolean or omitted flags and a given `onClick`, the pointer is shown exactly when a click calls `onClick` |
| Button.NullDisabledShowsPointerButIgnoresClicks | src/Components/Button/Button.jsx:24-39 | With `disabled = null` the button shows the pointer yet ignores clicks |
| Button.ClassArgs | src/Components/Button/Button.jsx:28-32 | The three arguments: `buttonClass` when `basicClass` is truthy, `buttonDisabled` when also `disabled` or `isLoading`, and `className` last |
| Button.ButtonClass | src/Components/Button/Button.jsx:28-32 | For boolean or omitted flags the class string throws exactly when `className` is `null` |
| Button.ButtonClassWords | src/Components/Button/Button.jsx:28-32 | For boolean flags and a one-word `className`, the class list holds `buttonClass` iff `basicClass`, then `buttonDisabled` iff `basicClass` and (`disabled` or `isLoading`), then `className` |
| Button.EmptyBasicClassKeepsSpaces | src/Components/Button/Button.jsx:28-32 | An empty-string `basicClass` is falsy but kept, so the class string begins with two spaces |
| Button.Content | src/Components/Button/Button.jsx:41 | The loader (a spinner by default) replaces the children exactly when `isLoading` is truthy |
| Button.ContentMatchesGuard | src/Components/Button/Button.jsx:33-41 | A button whose click reaches `onClick` shows its children, and a loading one ignores clicks and shows the loader |

## Left out

- The grid components (`Row`, `Col`, `Container`). They build class strings with `classNames` (`Col` adds `order-*` classes), pass styles, wrap children, and `Container` writes its `className` to the console on every render.
- `ThemeProvider` and `index.js`. They are context wiring and re-exports; the theme is a parameter here.
- DOM measurement and floating point:
  - the slider's element widths, translation and drag threshold, which become integer parameters;
  - the `marginLeft` percentages;
  - `getBoundingClientRect`;
  - Select's regular expression and `parseFloat` of the transition seconds.
- User-agent sniffing (`isMobile`, `isSafariDesktop`). The computed "drag disabled" flag is a parameter.
- Timers:
  - Autoplay's `setInterval` is modelled only as repeated presses of next (`Advance`).
  - The touch move's `setTimeout` is a pending-timeout counter.
  - Select's scroll-to-top timeout is not modelled.
- `generateRandomCharacters`, which draws from `Math.random`. Its output is a parameter of `TextField.InputId`.
- React machinery:
  - rendering, refs, `forwardRef`, `useMemo`, batching of state updates, icon components and inline styles (cursor "grab", the panel and arrow styles, the slider's margin);
  - the imperative handle's dependency list in MagicModal. It omits `hide`, so `isOpen()` could read a stale flag when every prop is referentially stable. The model uses the current flag.
- The class lists MagicModal renders for the overlay, modal and content. Their class names are modelled through `MagicModal.Merge`.
- Select's `close()` resets an inline `top` or `bottom` style; only the position state is modelled.
- `renderOption` and `renderPlaceholder` are user callbacks. `Select.Shown` records the arguments they receive, not what they render.
- Breakpoint keys that are not numbers. `Object.keys` yields strings, and a non-numeric key compares as `NaN`; the model types the keys as integers.
- InputField's label and error-message blocks. They render `label` and `error.message` as they are.
- TextField's `rows`, `cols`, `autoComplete`, `maxLength`, `readOnly` and `onChange`, which are passed to the textarea unchanged.
- Slider.SliderState: the layout (`count` children, `perView` slides per view) is fixed for the object's lifetime. In the component both are recomputed on every render, so a resize or a change of children can leave `index` above `count - perView`; the model does not capture that re-layout.
- Slider.SliderState: the slides per view is an integer. A breakpoint entry without `slidesPerView` yields `undefined` (which `Slider.GetSlidePerView` returns as such), and the component's index arithmetic then runs on `NaN`; that path is not modelled.
- Slider.GetSlidePerView: the viewport width is an integer. The source compares it with string keys through JavaScript's numeric coercion.
- Button.ButtonClass: the null case is stated only for boolean or omitted flags. Other flag values go through `classNames` with the same rule, but are not stated.
- Select.AfterUpdateValue: the `setValue` and `onSelectChange` callbacks are taken to be callable. In the source `setValue` has no default, so a select without it throws a TypeError in `updateValue` before `onSelectChange` runs; the same holds for `Select.Select.UpdateValue`, `Select.AfterOptionClick` and `Select.Select.OptionClick`.
- InputField.OnInput: `setValue` is taken to be callable, but it has no default, so an input field without it throws on every input. Both handlers take the new value `v` as their argument; reading `e.target.value` from the event, with its throw on a missing target, is modelled only for TextField (`TextField.InputCalls`).
- InputField.OnBlur: `setValue` is taken to be callable in the same way; without it every validating blur throws in the source.
- InputField.StatusIcon: a falsy non-boolean `required` is modelled as hiding the success icon. The source's `&&` then renders `required` itself (for example `0`), and that output is not modelled.
