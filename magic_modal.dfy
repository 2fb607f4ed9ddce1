/** MagicModal: a modal driven through an imperative handle. Its state is
    two flags, `hide` and `destroy` (fields `hidden` and `destroyed`, as
    `hide` is a Dafny keyword), the body it shows and the options of
    the last `updateBody`; every handle call fires callbacks, recorded here
    in an append-only log. The callbacks and class names a call uses are
    merged from the per-call options, the theme's `magicModal` section and
    the props. CSS-module class names and React nodes are opaque values. */
module MagicModal {
  import opened Js
  import opened Props

  // CSS-module class names of the component (opaque).
  const ContentStyleClass: Value := Str("MagicModal.content")
  const OverlayStyleClass: Value := Str("MagicModal.overlay")
  const ModalStyleClass: Value := Str("MagicModal.modal")
  const HideModalStyleClass: Value := Str("MagicModal.hideModal")
  // The default close icon element and the default `() => {}` callbacks.
  const DefaultCloseIcon: Value := Elem("span.hideButton")
  const Noop: Value := Fn("() => {}")

  /** The props as passed (`Undefined` where a prop is omitted). */
  datatype ModalProps = ModalProps(
    body: Value,
    contentStyle: Value, contentClassName: Value,
    overlayStyle: Value, overlayClassName: Value,
    modalStyle: Value, modalClassName: Value,
    closeIconStyle: Value, closeIconClassName: Value,
    closeIcon: Value, showCloseIcon: Value, destroyBodyOnClose: Value,
    onModalOpen: Value, onModalHide: Value, onBodyUpdate: Value,
    onModalDestroy: Value, onCloseIconClick: Value)

  /** `computedModalOptions`. */
  datatype ModalOptions = ModalOptions(
    contentStyle: Value, overlayStyle: Value, modalStyle: Value, closeIconStyle: Value,
    contentClassName: Value, overlayClassName: Value, modalClassName: Value, closeIconClassName: Value,
    onModalHide: Value, onModalOpen: Value, onBodyUpdate: Value, onModalDestroy: Value,
    onCloseIconClick: Value,
    closeIcon: Value, showCloseIcon: Value, destroyBodyOnClose: Value)

  /** `computedOptions?.key || prop` */
  predicate OptionOrProp(options: Value, key: string, prop: Value, got: Value) {
    && (Truthy(OptGet(options, key)) ==> got == OptGet(options, key))
    && (!Truthy(OptGet(options, key)) ==> got == prop)
  }

  /** `computedOptions?.key || theme.magicModal.key || prop` */
  predicate OptionThemeOrProp(options: Value, theme: Value, key: string, prop: Value, got: Value) {
    ThemedChoice(OptGet(options, key), theme, "magicModal", key, prop, got)
  }

  /** `computedOptions?.key !== undefined ? computedOptions?.key : prop` */
  predicate OptionUnlessUndefined(options: Value, key: string, prop: Value, got: Value) {
    && (!OptGet(options, key).Undefined? ==> got == OptGet(options, key))
    && (OptGet(options, key).Undefined? ==> got == prop)
  }

  function ClassOption(options: Value, theme: Value, key: string, prop: Value): Value {
    Themed(OptGet(options, key), theme, "magicModal", key, prop)
  }

  function ExplicitOption(options: Value, key: string, prop: Value): Value {
    if !OptGet(options, key).Undefined? then OptGet(options, key) else prop
  }

  /** The option merge (with the props' defaults applied). */
  function Merge(options: Value, theme: Value, p: ModalProps): (r: ModalOptions)
    ensures OptionOrProp(options, "contentStyle", p.contentStyle, r.contentStyle)
    ensures OptionOrProp(options, "overlayStyle", p.overlayStyle, r.overlayStyle)
    ensures OptionOrProp(options, "modalStyle", p.modalStyle, r.modalStyle)
    ensures OptionOrProp(options, "closeIconStyle", p.closeIconStyle, r.closeIconStyle)
    ensures OptionThemeOrProp(options, theme, "contentClassName",
                              Default(p.contentClassName, ContentStyleClass), r.contentClassName)
    ensures OptionThemeOrProp(options, theme, "overlayClassName",
                              Default(p.overlayClassName, OverlayStyleClass), r.overlayClassName)
    ensures OptionThemeOrProp(options, theme, "modalClassName",
                              Default(p.modalClassName, ModalStyleClass), r.modalClassName)
    ensures OptionThemeOrProp(options, theme, "closeIconClassName",
                              Default(p.closeIconClassName, HideModalStyleClass), r.closeIconClassName)
    ensures OptionOrProp(options, "onModalHide", Default(p.onModalHide, Noop), r.onModalHide)
    ensures OptionOrProp(options, "onModalOpen", Default(p.onModalOpen, Noop), r.onModalOpen)
    ensures OptionOrProp(options, "onBodyUpdate", Default(p.onBodyUpdate, Noop), r.onBodyUpdate)
    ensures OptionOrProp(options, "onModalDestroy", Default(p.onModalDestroy, Noop), r.onModalDestroy)
    ensures OptionOrProp(options, "onCloseIconClick", Default(p.onCloseIconClick, Noop), r.onCloseIconClick)
    ensures OptionOrProp(options, "closeIcon", Default(p.closeIcon, DefaultCloseIcon), r.closeIcon)
    ensures OptionUnlessUndefined(options, "showCloseIcon", Default(p.showCloseIcon, Bool(true)), r.showCloseIcon)
    ensures OptionUnlessUndefined(options, "destroyBodyOnClose",
                                  Default(p.destroyBodyOnClose, Bool(true)), r.destroyBodyOnClose)
  {
    ModalOptions(
      Or(OptGet(options, "contentStyle"), p.contentStyle),
      Or(OptGet(options, "overlayStyle"), p.overlayStyle),
      Or(OptGet(options, "modalStyle"), p.modalStyle),
      Or(OptGet(options, "closeIconStyle"), p.closeIconStyle),
      ClassOption(options, theme, "contentClassName", Default(p.contentClassName, ContentStyleClass)),
      ClassOption(options, theme, "overlayClassName", Default(p.overlayClassName, OverlayStyleClass)),
      ClassOption(options, theme, "modalClassName", Default(p.modalClassName, ModalStyleClass)),
      ClassOption(options, theme, "closeIconClassName", Default(p.closeIconClassName, HideModalStyleClass)),
      Or(OptGet(options, "onModalHide"), Default(p.onModalHide, Noop)),
      Or(OptGet(options, "onModalOpen"), Default(p.onModalOpen, Noop)),
      Or(OptGet(options, "onBodyUpdate"), Default(p.onBodyUpdate, Noop)),
      Or(OptGet(options, "onModalDestroy"), Default(p.onModalDestroy, Noop)),
      Or(OptGet(options, "onCloseIconClick"), Default(p.onCloseIconClick, Noop)),
      Or(OptGet(options, "closeIcon"), Default(p.closeIcon, DefaultCloseIcon)),
      ExplicitOption(options, "showCloseIcon", Default(p.showCloseIcon, Bool(true))),
      ExplicitOption(options, "destroyBodyOnClose", Default(p.destroyBodyOnClose, Bool(true))))
  }

  /** An explicit `false` in the options hides the close icon and keeps the
      body on close, whatever the props say; an empty class name in the
      options falls through to the theme. */
  lemma ExplicitFalseWins(theme: Value, p: ModalProps)
    ensures Merge(Record("showCloseIcon", Bool(false)), theme, p).showCloseIcon == Bool(false)
    ensures Merge(Record("destroyBodyOnClose", Bool(false)), theme, p).destroyBodyOnClose == Bool(false)
    ensures Merge(Record("modalClassName", Str("")), theme, p).modalClassName
              == Merge(Obj(map[]), theme, p).modalClassName
  {
  }

  // ---------------------------------------------------------------------------
  // The state machine

  datatype Callback = ModalOpen | ModalHide | BodyUpdate | ModalDestroy | CloseIconClick

  /** One callback invocation: which callback and the handler value called. */
  datatype Call = Call(callback: Callback, handler: Value)

  datatype ModalState = ModalState(hidden: bool, destroyed: bool, body: Value, options: Value, log: seq<Call>)

  function Handler(s: ModalState, theme: Value, p: ModalProps, cb: Callback): Value {
    var m := Merge(s.options, theme, p);
    match cb
    case ModalOpen => m.onModalOpen
    case ModalHide => m.onModalHide
    case BodyUpdate => m.onBodyUpdate
    case ModalDestroy => m.onModalDestroy
    case CloseIconClick => m.onCloseIconClick
  }

  function Fire(s: ModalState, theme: Value, p: ModalProps, cb: Callback): Call {
    Call(cb, Handler(s, theme, p, cb))
  }

  /** `isOpen()` */
  predicate IsOpen(s: ModalState) {
    !s.hidden
  }

  /** Whether the component renders anything. */
  predicate Rendered(s: ModalState) {
    !s.destroyed
  }

  /** The overlay's `display` style, when rendered. */
  function Display(s: ModalState): (r: Option<string>)
    ensures r.Some? <==> Rendered(s)
    ensures r == Some("none") <==> Rendered(s) && s.hidden
    ensures r == Some("block") <==> Rendered(s) && !s.hidden
  {
    if s.destroyed then None else Some(if s.hidden then "none" else "block")
  }

  /** The initial state: hidden and destroyed, showing the `body` prop. */
  function Init(p: ModalProps): (r: ModalState)
    ensures !IsOpen(r) && !Rendered(r) && Display(r) == None
    ensures r.body == p.body && r.options == Obj(map[]) && r.log == []
  {
    ModalState(true, true, p.body, Obj(map[]), [])
  }

  /** `open()` */
  function AfterOpen(s: ModalState, theme: Value, p: ModalProps): (r: ModalState)
    ensures IsOpen(r) && Rendered(r) && Display(r) == Some("block")
    ensures r.body == s.body && r.options == s.options
    ensures r.log == s.log + [Call(ModalOpen, Merge(s.options, theme, p).onModalOpen)]
  {
    s.(destroyed := false, hidden := false, log := s.log + [Fire(s, theme, p, ModalOpen)])
  }

  /** `hide()` */
  function AfterHide(s: ModalState, theme: Value, p: ModalProps): (r: ModalState)
    ensures !IsOpen(r) && Rendered(r) == Rendered(s)
    ensures Display(r) == if Rendered(s) then Some("none") else None
    ensures r.body == s.body && r.options == s.options
    ensures r.log == s.log + [Call(ModalHide, Merge(s.options, theme, p).onModalHide)]
  {
    s.(hidden := true, log := s.log + [Fire(s, theme, p, ModalHide)])
  }

  /** `updateBody(body, options)`: both callbacks come from the options in
      force before the call. */
  function AfterUpdateBody(s: ModalState, theme: Value, p: ModalProps, body: Value, options: Value): (r: ModalState)
    ensures IsOpen(r) && Rendered(r)
    ensures r.body == body && r.options == options
    ensures r.log == s.log + [Call(ModalOpen, Merge(s.options, theme, p).onModalOpen),
                              Call(BodyUpdate, Merge(s.options, theme, p).onBodyUpdate)]
  {
    ModalState(false, false, body, options,
               s.log + [Fire(s, theme, p, ModalOpen), Fire(s, theme, p, BodyUpdate)])
  }

  /** `destroy()`: the `hide` flag is untouched, so an open modal that is
      destroyed still reports `isOpen()`. */
  function AfterDestroy(s: ModalState, theme: Value, p: ModalProps): (r: ModalState)
    ensures !Rendered(r) && Display(r) == None
    ensures IsOpen(r) == IsOpen(s)
    ensures r.body == Null && r.options == s.options
    ensures r.log == s.log + [Call(ModalDestroy, Merge(s.options, theme, p).onModalDestroy)]
  {
    s.(destroyed := true, body := Null, log := s.log + [Fire(s, theme, p, ModalDestroy)])
  }

  /** The close icon can be clicked only while it is on screen. */
  predicate CloseIconShown(s: ModalState, theme: Value, p: ModalProps) {
    Rendered(s) && !s.hidden && Truthy(Merge(s.options, theme, p).showCloseIcon)
  }

  /** The close icon's click handler. */
  function AfterCloseIconClick(s: ModalState, theme: Value, p: ModalProps): (r: ModalState)
    requires CloseIconShown(s, theme, p)
    ensures |r.log| == |s.log| + 3 && r.log[..|s.log|] == s.log
    ensures r.log[|s.log|] == Call(CloseIconClick, Merge(s.options, theme, p).onCloseIconClick)
    ensures r.log[|s.log| + 1] == Call(ModalHide, Merge(s.options, theme, p).onModalHide)
    ensures Truthy(Merge(s.options, theme, p).destroyBodyOnClose) ==>
      && !Rendered(r) && r.body == Null && IsOpen(r)
      && r.log[|s.log| + 2] == Call(ModalDestroy, Merge(s.options, theme, p).onModalDestroy)
    ensures !Truthy(Merge(s.options, theme, p).destroyBodyOnClose) ==>
      && Rendered(r) && !IsOpen(r) && r.body == s.body
      && r.log[|s.log| + 2] == Call(ModalHide, Merge(s.options, theme, p).onModalHide)
  {
    var clicked := s.(log := s.log + [Fire(s, theme, p, CloseIconClick), Fire(s, theme, p, ModalHide)]);
    if Truthy(Merge(s.options, theme, p).destroyBodyOnClose) then AfterDestroy(clicked, theme, p)
    else AfterHide(clicked, theme, p)
  }

  function CountOf(log: seq<Call>, cb: Callback): nat
    decreases |log|
  {
    if log == [] then 0
    else CountOf(log[..|log| - 1], cb) + (if log[|log| - 1].callback == cb then 1 else 0)
  }

  lemma {:induction false} CountOfConcat(a: seq<Call>, b: seq<Call>, cb: Callback)
    ensures CountOf(a + b, cb) == CountOf(a, cb) + CountOf(b, cb)
    decreases |b|
  {
    if b == [] {
      assert a + b == a;
    } else {
      assert (a + b)[..|a + b| - 1] == a + b[..|b| - 1];
      CountOfConcat(a, b[..|b| - 1], cb);
    }
  }

  /** Closing through the icon while keeping the body fires `onModalHide`
      twice: once from the click handler and once from `hide()`. */
  lemma CloseWithoutDestroyHidesTwice(s: ModalState, theme: Value, p: ModalProps)
    requires CloseIconShown(s, theme, p)
    requires !Truthy(Merge(s.options, theme, p).destroyBodyOnClose)
    ensures CountOf(AfterCloseIconClick(s, theme, p).log, ModalHide) == CountOf(s.log, ModalHide) + 2
    ensures CountOf(AfterCloseIconClick(s, theme, p).log, ModalDestroy) == CountOf(s.log, ModalDestroy)
  {
    var r := AfterCloseIconClick(s, theme, p);
    var m := Merge(s.options, theme, p);
    var added := [Call(CloseIconClick, m.onCloseIconClick), Call(ModalHide, m.onModalHide),
                  Call(ModalHide, m.onModalHide)];
    assert r.log == s.log + added;
    CountOfConcat(s.log, added, ModalHide);
    CountOfConcat(s.log, added, ModalDestroy);
    assert added[..2] == [added[0], added[1]];
    assert added[..2][..1] == [added[0]];
    assert added[..2][..1][..0] == [];
    assert CountOf(added[..2][..1], ModalHide) == 0 && CountOf(added[..2][..1], ModalDestroy) == 0;
    assert CountOf(added[..2], ModalHide) == 1 && CountOf(added[..2], ModalDestroy) == 0;
    assert CountOf(added, ModalHide) == 2 && CountOf(added, ModalDestroy) == 0;
  }

  // ---------------------------------------------------------------------------
  // Runs of handle calls

  datatype Op =
    | OpenOp
    | HideOp
    | UpdateBodyOp(body: Value, options: Value)
    | DestroyOp
    | CloseIconOp

  /** One handle call or click; a click on an icon that is not shown does nothing. */
  function Step(s: ModalState, theme: Value, p: ModalProps, op: Op): ModalState {
    match op
    case OpenOp => AfterOpen(s, theme, p)
    case HideOp => AfterHide(s, theme, p)
    case UpdateBodyOp(b, o) => AfterUpdateBody(s, theme, p, b, o)
    case DestroyOp => AfterDestroy(s, theme, p)
    case CloseIconOp => if CloseIconShown(s, theme, p) then AfterCloseIconClick(s, theme, p) else s
  }

  function Run(s: ModalState, theme: Value, p: ModalProps, ops: seq<Op>): ModalState
    decreases |ops|
  {
    if ops == [] then s else Run(Step(s, theme, p, ops[0]), theme, p, ops[1..])
  }

  /** Every `onBodyUpdate` call is immediately preceded by an `onModalOpen` call. */
  predicate UpdateFollowsOpen(log: seq<Call>) {
    forall i :: 0 <= i < |log| && log[i].callback == BodyUpdate ==> 0 < i && log[i - 1].callback == ModalOpen
  }

  /** Appending calls that keep the order themselves, and do not start with an
      `onBodyUpdate`, keeps the order of the whole log. */
  lemma AppendKeepsLogOrder(log: seq<Call>, added: seq<Call>)
    requires UpdateFollowsOpen(log) && UpdateFollowsOpen(added)
    requires added != [] ==> added[0].callback != BodyUpdate
    ensures UpdateFollowsOpen(log + added)
  {
    var all := log + added;
    forall i | 0 <= i < |all| && all[i].callback == BodyUpdate
      ensures 0 < i && all[i - 1].callback == ModalOpen
    {
      if i < |log| {
        assert log[i] == all[i] && log[i - 1] == all[i - 1];
      } else {
        assert added[i - |log|] == all[i];
        assert i - |log| > 0;
        assert added[i - |log| - 1] == all[i - 1];
      }
    }
  }

  /** Appending one call other than `onBodyUpdate` keeps the order. */
  lemma AppendOneKeepsLogOrder(log: seq<Call>, c: Call)
    requires UpdateFollowsOpen(log) && c.callback != BodyUpdate
    ensures UpdateFollowsOpen(log + [c])
  {
    AppendKeepsLogOrder(log, [c]);
  }

  lemma UpdateBodyKeepsLogOrder(s: ModalState, theme: Value, p: ModalProps, body: Value, options: Value)
    requires UpdateFollowsOpen(s.log)
    ensures UpdateFollowsOpen(AfterUpdateBody(s, theme, p, body, options).log)
  {
    var m := Merge(s.options, theme, p);
    AppendKeepsLogOrder(s.log, [Call(ModalOpen, m.onModalOpen), Call(BodyUpdate, m.onBodyUpdate)]);
  }

  lemma CloseIconKeepsLogOrder(s: ModalState, theme: Value, p: ModalProps)
    requires CloseIconShown(s, theme, p) && UpdateFollowsOpen(s.log)
    ensures UpdateFollowsOpen(AfterCloseIconClick(s, theme, p).log)
    ensures s.log <= AfterCloseIconClick(s, theme, p).log
  {
    var r := AfterCloseIconClick(s, theme, p);
    var added := r.log[|s.log|..];
    assert r.log == s.log + added && |added| == 3;
    assert added[0].callback == CloseIconClick && added[1].callback == ModalHide;
    assert added[2].callback == ModalDestroy || added[2].callback == ModalHide;
    AppendKeepsLogOrder(s.log, added);
  }

  /** The log only grows, and every `onBodyUpdate` follows an `onModalOpen`. */
  lemma {:induction false} StepKeepsLogOrder(s: ModalState, theme: Value, p: ModalProps, op: Op)
    requires UpdateFollowsOpen(s.log)
    ensures UpdateFollowsOpen(Step(s, theme, p, op).log)
    ensures s.log <= Step(s, theme, p, op).log
  {
    match op
    case OpenOp =>
      AppendOneKeepsLogOrder(s.log, Call(ModalOpen, Merge(s.options, theme, p).onModalOpen));
    case HideOp =>
      AppendOneKeepsLogOrder(s.log, Call(ModalHide, Merge(s.options, theme, p).onModalHide));
    case UpdateBodyOp(b, o) =>
      UpdateBodyKeepsLogOrder(s, theme, p, b, o);
    case DestroyOp =>
      AppendOneKeepsLogOrder(s.log, Call(ModalDestroy, Merge(s.options, theme, p).onModalDestroy));
    case CloseIconOp =>
      if CloseIconShown(s, theme, p) {
        CloseIconKeepsLogOrder(s, theme, p);
      }
  }

  lemma {:induction false} RunKeepsLogOrder(s: ModalState, theme: Value, p: ModalProps, ops: seq<Op>)
    requires UpdateFollowsOpen(s.log)
    ensures UpdateFollowsOpen(Run(s, theme, p, ops).log)
    ensures s.log <= Run(s, theme, p, ops).log
    decreases |ops|
  {
    if ops != [] {
      StepKeepsLogOrder(s, theme, p, ops[0]);
      RunKeepsLogOrder(Step(s, theme, p, ops[0]), theme, p, ops[1..]);
    }
  }

  /** `open()` then `destroy()` leaves a modal that renders nothing but still
      reports `isOpen()`, as `destroy` does not touch the `hide` flag. */
  lemma DestroyAfterOpenStillOpen(s: ModalState, theme: Value, p: ModalProps)
    ensures IsOpen(Run(s, theme, p, [OpenOp, DestroyOp]))
    ensures !Rendered(Run(s, theme, p, [OpenOp, DestroyOp]))
  {
    assert [OpenOp, DestroyOp][1..] == [DestroyOp];
  }

  // ---------------------------------------------------------------------------
  // The component

  /** The component instance behind the handle. */
  class Modal {
    const props: ModalProps
    const theme: Value
    var hidden: bool
    var destroyed: bool
    var body: Value
    var options: Value
    var log: seq<Call>

    function State(): ModalState
      reads this
    {
      ModalState(hidden, destroyed, body, options, log)
    }

    constructor (props: ModalProps, theme: Value)
      ensures this.props == props && this.theme == theme
      ensures State() == Init(props)
    {
      this.props := props;
      this.theme := theme;
      hidden := true;
      destroyed := true;
      body := props.body;
      options := Obj(map[]);
      log := [];
    }

    method Open()
      modifies this
      ensures State() == AfterOpen(old(State()), theme, props)
    {
      destroyed := false;
      hidden := false;
      log := log + [Call(ModalOpen, Merge(options, theme, props).onModalOpen)];
    }

    method Hide()
      modifies this
      ensures State() == AfterHide(old(State()), theme, props)
    {
      hidden := true;
      log := log + [Call(ModalHide, Merge(options, theme, props).onModalHide)];
    }

    method UpdateBody(newBody: Value, newOptions: Value)
      modifies this
      ensures State() == AfterUpdateBody(old(State()), theme, props, newBody, newOptions)
    {
      var merged := Merge(options, theme, props);
      log := log + [Call(ModalOpen, merged.onModalOpen)];
      log := log + [Call(BodyUpdate, merged.onBodyUpdate)];
      destroyed := false;
      hidden := false;
      body := newBody;
      options := newOptions;
    }

    method Destroy()
      modifies this
      ensures State() == AfterDestroy(old(State()), theme, props)
    {
      destroyed := true;
      body := Null;
      log := log + [Call(ModalDestroy, Merge(options, theme, props).onModalDestroy)];
    }

    /** `isOpen()` */
    method IsOpenNow() returns (r: bool)
      ensures r == IsOpen(State())
    {
      r := !hidden;
    }

    /** A click on the close icon. */
    method ClickCloseIcon()
      requires CloseIconShown(State(), theme, props)
      modifies this
      ensures State() == AfterCloseIconClick(old(State()), theme, props)
    {
      var merged := Merge(options, theme, props);
      log := log + [Call(CloseIconClick, merged.onCloseIconClick)];
      log := log + [Call(ModalHide, merged.onModalHide)];
      if Truthy(merged.destroyBodyOnClose) {
        Destroy();
      } else {
        Hide();
      }
    }
  }
}
