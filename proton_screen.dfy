/**
 * The decisions an onboarding ("about:welcome") screen makes before it
 * renders: the screen's class string, whether it is laid out centred, whether
 * the steps indicator shows and with which step numbers, when the action
 * buttons render and when the primary one is disabled, the checkbox that
 * selects the primary button's action, and whether the logo loads lazily.
 *
 * The rendered element tree is not modelled; each decision is a function of
 * the screen's properties. JavaScript values are given the cases the code
 * distinguishes (absent, a boolean, a string).
 */
module ProtonScreen {
  import opened Wrappers

  // ---------------------------------------------------------------------------
  // Class strings as space-separated words
  // ---------------------------------------------------------------------------

  /** The longest prefix of `s` without a space. */
  function FirstWord(s: string): (w: string)
    ensures |w| <= |s| && w == s[..|w|] && ' ' !in w
    ensures |w| < |s| ==> s[|w|] == ' '
    ensures s != [] && s[0] != ' ' ==> w != []
  {
    if s == [] || s[0] == ' ' then [] else [s[0]] + FirstWord(s[1..])
  }

  /** The class names a `className` string denotes: its maximal runs of non-space characters. */
  function Words(s: string): seq<string>
    decreases |s|
  {
    if s == [] then []
    else if s[0] == ' ' then Words(s[1..])
    else
      var w := FirstWord(s);
      [w] + Words(s[|w|..])
  }

  lemma {:induction false} FirstWordBeforeSpace(x: string, y: string)
    ensures FirstWord(x + " " + y) == FirstWord(x)
    decreases |x|
  {
    if x == [] {
      assert (x + " " + y)[0] == ' ';
    } else if x[0] != ' ' {
      assert (x + " " + y)[1..] == x[1..] + " " + y;
      FirstWordBeforeSpace(x[1..], y);
    }
  }

  lemma {:induction false} FirstWordOfWord(w: string)
    requires ' ' !in w
    ensures FirstWord(w) == w
    decreases |w|
  {
    if w != [] {
      FirstWordOfWord(w[1..]);
    }
  }

  /** A non-empty string without spaces is one class name. */
  lemma SingleWord(w: string)
    requires w != [] && ' ' !in w
    ensures Words(w) == [w]
  {
    FirstWordOfWord(w);
    assert w[|w|..] == [];
  }

  /** Joining two class strings with a space joins their class names. */
  lemma {:induction false} WordsJoin(x: string, y: string)
    ensures Words(x + " " + y) == Words(x) + Words(y)
    decreases |x|
  {
    var s := x + " " + y;
    if x == [] {
      assert s[1..] == y;
    } else if x[0] == ' ' {
      assert s[1..] == x[1..] + " " + y;
      WordsJoin(x[1..], y);
    } else {
      var w := FirstWord(x);
      FirstWordBeforeSpace(x, y);
      assert FirstWord(s) == w;
      if |w| == |x| {
        assert s[|w|..] == " " + y;
        assert (" " + y)[1..] == y;
        assert x[|w|..] == [];
      } else {
        assert x[|w|] == ' ';
        assert s[|w|..] == x[|w|..] + " " + y;
        WordsJoin(x[|w|..], y);
      }
    }
  }

  /** The class name a flag contributes, `""` when the flag is off. */
  function Optional(flag: bool, name: string): string {
    if flag then name else ""
  }

  lemma OptionalWords(flag: bool, name: string)
    requires name != [] && ' ' !in name
    ensures Words(Optional(flag, name)) == if flag then [name] else []
  {
    if flag {
      SingleWord(name);
    }
  }

  // ---------------------------------------------------------------------------
  // getScreenClassName
  // ---------------------------------------------------------------------------

  /** JavaScript's `a % b` for `b > 0`: the remainder takes the sign of `a`. */
  function JsRemainder(a: int, b: int): int
    requires b > 0
  {
    if a >= 0 then a % b else -((-a) % b)
  }

  /** `order % 2 !== 0`; an undefined order gives NaN, which is not 0. */
  function OrderIsOdd(order: Option<int>): (odd: bool)
    ensures order.Some? ==> (odd <==> order.value % 2 == 1)
    ensures order.None? ==> odd
  {
    match order
    case None => true
    case Some(n) => JsRemainder(n, 2) != 0
  }

  /** `getScreenClassName`. */
  function ScreenClassName(order: Option<int>, isFirstScreen: bool, isLastScreen: bool, includeNoodles: bool,
                           isVideoOnboarding: bool, isAddonsPicker: bool): (className: string)
    // video onboarding wins over the add-ons picker, which wins over the rest
    ensures isVideoOnboarding ==> className == "with-video"
    ensures !isVideoOnboarding && isAddonsPicker ==> className == "addons-picker"
    // any other screen's class string ends in its parity class
    ensures !isVideoOnboarding && !isAddonsPicker ==>
      |className| >= 8 && className[|className| - 8..] == (if OrderIsOdd(order) then "screen-1" else "screen-2")
  {
    var screenClass := "screen-" + (if OrderIsOdd(order) then "1" else "2");
    if isVideoOnboarding then "with-video"
    else if isAddonsPicker then "addons-picker"
    else
      Optional(isFirstScreen, "dialog-initial") + " " + Optional(isLastScreen, "dialog-last") + " "
      + Optional(includeNoodles, "with-noodles") + " " + screenClass
  }

  /**
   * A video screen is "with-video" and an add-ons picker "addons-picker",
   * whatever else holds; any other screen has "dialog-initial" exactly when it
   * is the first, "dialog-last" exactly when it is the last, "with-noodles"
   * exactly when it has noodles, and "screen-1" for an odd order, "screen-2"
   * otherwise.
   */
  lemma ScreenClassNameWords(order: Option<int>, isFirstScreen: bool, isLastScreen: bool, includeNoodles: bool,
                             isVideoOnboarding: bool, isAddonsPicker: bool)
    ensures isVideoOnboarding ==>
      ScreenClassName(order, isFirstScreen, isLastScreen, includeNoodles, isVideoOnboarding, isAddonsPicker) == "with-video"
    ensures !isVideoOnboarding && isAddonsPicker ==>
      ScreenClassName(order, isFirstScreen, isLastScreen, includeNoodles, isVideoOnboarding, isAddonsPicker) == "addons-picker"
    ensures !isVideoOnboarding && !isAddonsPicker ==>
      Words(ScreenClassName(order, isFirstScreen, isLastScreen, includeNoodles, isVideoOnboarding, isAddonsPicker))
      == (if isFirstScreen then ["dialog-initial"] else [])
       + (if isLastScreen then ["dialog-last"] else [])
       + (if includeNoodles then ["with-noodles"] else [])
       + [if OrderIsOdd(order) then "screen-1" else "screen-2"]
  {
    if !isVideoOnboarding && !isAddonsPicker {
      var a := Optional(isFirstScreen, "dialog-initial");
      var b := Optional(isLastScreen, "dialog-last");
      var c := Optional(includeNoodles, "with-noodles");
      var s := "screen-" + (if OrderIsOdd(order) then "1" else "2");
      OptionalWords(isFirstScreen, "dialog-initial");
      OptionalWords(isLastScreen, "dialog-last");
      OptionalWords(includeNoodles, "with-noodles");
      assert s == if OrderIsOdd(order) then "screen-1" else "screen-2";
      SingleWord(s);
      WordsJoin(a, b);
      WordsJoin(a + " " + b, c);
      WordsJoin(a + " " + b + " " + c, s);
      assert ScreenClassName(order, isFirstScreen, isLastScreen, includeNoodles, isVideoOnboarding, isAddonsPicker)
        == a + " " + b + " " + c + " " + s;
    }
  }

  // ---------------------------------------------------------------------------
  // Screen layout in render
  // ---------------------------------------------------------------------------

  /** The content fields the screen's layout decisions read. */
  datatype Content = Content(
    position: Option<string>,
    hasNoodles: bool,
    videoContainer: bool,
    tilesType: Option<string>)

  /** The properties of one screen that its layout decisions read. */
  datatype ScreenProps = ScreenProps(
    content: Content,
    order: Option<int>,
    previousOrder: Option<int>,
    totalNumberOfScreens: Option<int>,
    autoAdvance: bool,
    isFirstScreen: bool,
    isLastScreen: bool,
    isSingleScreen: bool,
    forceHideStepsIndicator: bool)

  /** JavaScript falsiness of an optional string: absent or empty. */
  predicate IsFalsy(s: Option<string>) {
    s.None? || s.value == ""
  }

  /** `isCenterPosition`: the position is "center", or is not given. */
  predicate IsCenterPosition(position: Option<string>)
    // absent and empty positions are falsy, so they count as centred too
    ensures IsCenterPosition(position) <==> position.None? || position == Some("") || position == Some("center")
  {
    position == Some("center") || IsFalsy(position)
  }

  /** The `pos` attribute: `content.position || "center"`. */
  function PosAttribute(position: Option<string>): (pos: string)
    // the attribute is never empty: a falsy position falls back to "center"
    ensures pos != ""
    ensures IsFalsy(position) ==> pos == "center"
    ensures !IsFalsy(position) ==> pos == position.value
  {
    if IsFalsy(position) then "center" else position.value
  }

  /** A screen is laid out centred exactly when its `pos` attribute reads "center". */
  lemma CenterPositionIsPosCenter(position: Option<string>)
    ensures IsCenterPosition(position) <==> PosAttribute(position) == "center"
  {
  }

  /** `hideStepsIndicator`. */
  predicate HideStepsIndicator(props: ScreenProps) {
    props.autoAdvance || props.content.videoContainer || props.isSingleScreen || props.forceHideStepsIndicator
  }

  /** The numbers the steps indicator shows. */
  datatype Steps = Steps(currentStep: int, previousStep: int, total: int)

  /** The step values of `renderStepsIndicator`. */
  function StepValues(order: Option<int>, previousOrder: Option<int>, total: Option<int>): (s: Steps)
    // steps count from 1, orders from 0: an absent order is the first step, an absent previous order none
    ensures s.currentStep - 1 == order.GetOr(0) && s.previousStep - 1 == previousOrder.GetOr(-1)
    ensures order.None? ==> s.currentStep == 1
    ensures previousOrder.None? ==> s.previousStep == 0
    ensures previousOrder.Some? && order.Some? && previousOrder.value + 1 == order.value ==> s.previousStep + 1 == s.currentStep
    ensures s.total == if total.Some? then total.value else 0
  {
    Steps(order.GetOr(0) + 1, previousOrder.GetOr(-1) + 1, total.GetOr(0))
  }

  /** What render decides before building the element tree. */
  datatype ScreenLayout = ScreenLayout(
    screenClassName: string,
    pos: string,
    rendersSecondarySection: bool,
    mainContentNoSteps: bool,
    stepsIndicator: Option<Steps>)

  /** The layout decisions of `render`. */
  function Layout(props: ScreenProps): (l: ScreenLayout)
    ensures !IsCenterPosition(props.content.position) ==> l.screenClassName == ""
    ensures IsCenterPosition(props.content.position) ==> l.screenClassName != ""
    ensures IsCenterPosition(props.content.position) ==>
      l.screenClassName == ScreenClassName(props.order, props.isFirstScreen, props.isLastScreen, props.content.hasNoodles,
                                           props.content.videoContainer, props.content.tilesType == Some("addons-picker"))
    ensures l.rendersSecondarySection <==> !IsCenterPosition(props.content.position)
    ensures l.pos == "center" <==> IsCenterPosition(props.content.position)
    ensures l.stepsIndicator.None? <==>
      props.autoAdvance || props.content.videoContainer || props.isSingleScreen || props.forceHideStepsIndicator
    ensures l.mainContentNoSteps <==> l.stepsIndicator.None?
    ensures l.stepsIndicator.Some? ==> l.stepsIndicator.value.currentStep - 1 == props.order.GetOr(0)
    ensures l.stepsIndicator ==
      if HideStepsIndicator(props) then None
      else Some(StepValues(props.order, props.previousOrder, props.totalNumberOfScreens))
  {
    var center := IsCenterPosition(props.content.position);
    var hideSteps := HideStepsIndicator(props);
    var className :=
      if center then
        ScreenClassName(props.order, props.isFirstScreen, props.isLastScreen, props.content.hasNoodles,
                        props.content.videoContainer, props.content.tilesType == Some("addons-picker"))
      else "";
    ScreenLayout(
      className,
      PosAttribute(props.content.position),
      !center,
      hideSteps,
      (if hideSteps then None else Some(StepValues(props.order, props.previousOrder, props.totalNumberOfScreens))))
  }

  // ---------------------------------------------------------------------------
  // Action buttons
  // ---------------------------------------------------------------------------

  /** A JavaScript value as the `disabled` field of a button may hold it. */
  datatype JsValue = Undefined | Bool(b: bool) | Str(s: string)

  predicate Truthy(v: JsValue) {
    match v
    case Undefined => false
    case Bool(b) => b
    case Str(s) => s != ""
  }

  /** The fields of `content` that the action-button block reads. */
  datatype ButtonsContent = ButtonsContent(
    primaryButtonDisabled: Option<JsValue>,  // None: no primary button; else its `disabled` field
    hasSecondaryButton: bool,
    hasAdditionalButton: bool,
    hasCheckbox: bool,
    checkboxDefaultValue: Option<bool>)      // `content.checkbox?.defaultValue`

  const HasActiveMultiSelect: string := "hasActiveMultiSelect"

  /** `isPrimaryDisabled`: the special value waits for a multi-select choice; any other value is passed through. */
  function IsPrimaryDisabled(value: JsValue, activeMultiSelect: Option<seq<string>>): (r: JsValue)
    ensures value == Str(HasActiveMultiSelect) ==>
      r.Bool? && (Truthy(r) <==> activeMultiSelect.None? || activeMultiSelect.value == [])
    ensures value != Str(HasActiveMultiSelect) ==> r == value
  {
    if value == Str(HasActiveMultiSelect) then
      Bool(!(activeMultiSelect.Some? && |activeMultiSelect.value| > 0))
    else value
  }

  /** The primary button's `disabled` attribute; an absent primary button's `disabled` is undefined. */
  function PrimaryDisabled(content: ButtonsContent, activeMultiSelect: Option<seq<string>>): (disabled: JsValue)
    // `content.primary_button?.disabled` is undefined without a primary button, and undefined passes through
    ensures content.primaryButtonDisabled.None? ==> disabled == Undefined
    ensures content.primaryButtonDisabled.Some? ==>
      disabled == IsPrimaryDisabled(content.primaryButtonDisabled.value, activeMultiSelect)
  {
    IsPrimaryDisabled(content.primaryButtonDisabled.GetOr(Undefined), activeMultiSelect)
  }

  /** On a multi-select screen the primary button is enabled exactly when something is selected. */
  lemma MultiSelectGatesPrimary(content: ButtonsContent, activeMultiSelect: Option<seq<string>>)
    requires content.primaryButtonDisabled == Some(Str(HasActiveMultiSelect))
    ensures !Truthy(PrimaryDisabled(content, activeMultiSelect)) <==>
      activeMultiSelect.Some? && |activeMultiSelect.value| > 0
  {
  }

  /** The checkbox's initial state: `defaultValue || false`. */
  function InitialChecked(defaultValue: Option<bool>): (checked: bool)
    // a given default is kept, an absent one reads as unchecked
    ensures defaultValue.Some? ==> checked == defaultValue.value
    ensures defaultValue.None? ==> !checked
  {
    defaultValue == Some(true)
  }

  /** The primary button's `value`, which tells the action handler where to find the action. */
  function PrimaryButtonValue(isChecked: bool): (v: string)
    ensures v == "checkbox" || v == "primary_button"
    ensures v == "checkbox" <==> isChecked
  {
    if isChecked then "checkbox" else "primary_button"
  }

  /** What a rendered action-button block shows. */
  datatype ActionButtonsView = ActionButtonsView(
    primaryValue: string,
    primaryDisabled: JsValue,
    showsAdditionalButton: bool,
    showsCheckbox: bool,
    showsSecondaryButton: bool)

  /** `ProtonScreenActionButtons` in checkbox state `isChecked`; `None` when it renders nothing. */
  function ActionButtons(content: ButtonsContent, activeMultiSelect: Option<seq<string>>, isChecked: bool)
    : (r: Option<ActionButtonsView>)
    ensures r.None? <==>
      content.primaryButtonDisabled.None? && !content.hasSecondaryButton && !content.hasAdditionalButton
    ensures r.Some? ==>
      && (r.value.primaryValue == "checkbox" <==> isChecked)
      && r.value.primaryDisabled == PrimaryDisabled(content, activeMultiSelect)
      && r.value.showsCheckbox == content.hasCheckbox
      && r.value.showsAdditionalButton == content.hasAdditionalButton
      && r.value.showsSecondaryButton == content.hasSecondaryButton
  {
    if content.primaryButtonDisabled.None? && !content.hasSecondaryButton && !content.hasAdditionalButton then None
    else
      Some(ActionButtonsView(
        PrimaryButtonValue(isChecked),
        PrimaryDisabled(content, activeMultiSelect),
        content.hasAdditionalButton,
        content.hasCheckbox,
        content.hasSecondaryButton))
  }

  /** The `isChecked` state of an action-button block. */
  class CheckboxState {
    var isChecked: bool
    /** The state the block started in, and how often the checkbox changed since. */
    ghost const initial: bool
    ghost var changes: nat

    ghost predicate Valid()
      reads this
    {
      isChecked == (initial != (changes % 2 == 1))
    }

    constructor (defaultValue: Option<bool>)
      ensures Valid() && initial == InitialChecked(defaultValue) && changes == 0
      ensures isChecked == InitialChecked(defaultValue)
    {
      isChecked := InitialChecked(defaultValue);
      initial := InitialChecked(defaultValue);
      changes := 0;
    }

    /** The checkbox's `onChange`: `setIsChecked(!isChecked)`. */
    method OnChange()
      requires Valid()
      modifies this
      ensures Valid() && changes == old(changes) + 1
      ensures isChecked == !old(isChecked)
    {
      isChecked := !isChecked;
      changes := changes + 1;
    }

    /** The primary button's `value` in this state. */
    function Value(): string
      reads this
    {
      PrimaryButtonValue(isChecked)
    }
  }

  // ---------------------------------------------------------------------------
  // Logo loading strategy
  // ---------------------------------------------------------------------------

  const BrandingLogo: string := "chrome://branding/content/about-logo.svg"

  /** The image fields of a logo. */
  datatype Logo = Logo(
    imageURL: Option<string>,
    darkModeImageURL: Option<string>,
    reducedMotionImageURL: Option<string>,
    darkModeReducedMotionImageURL: Option<string>)

  /** The four URLs `getLoadingStrategy` inspects, in order; `imageURL` defaults to the branding logo. */
  function LogoURLs(logo: Logo): (urls: seq<Option<string>>)
    ensures |urls| == 4
    ensures urls[0] == Some(if logo.imageURL.Some? then logo.imageURL.value else BrandingLogo)
    ensures urls[1..] == [logo.darkModeImageURL, logo.reducedMotionImageURL, logo.darkModeReducedMotionImageURL]
  {
    [Some(logo.imageURL.GetOr(BrandingLogo)), logo.darkModeImageURL, logo.reducedMotionImageURL,
     logo.darkModeReducedMotionImageURL]
  }

  /** Some image of the logo is one the host would load lazily. */
  predicate AnyLazy(logo: Logo, strategyFor: Option<string> -> string) {
    exists i :: 0 <= i < 4 && strategyFor(LogoURLs(logo)[i]) == "lazy"
  }

  /**
   * `getLoadingStrategy`: "lazy" as soon as one of the logo's images is
   * judged lazy by the host's `getLoadingStrategyFor`, else "eager".
   */
  method GetLoadingStrategy(logo: Logo, strategyFor: Option<string> -> string) returns (strategy: string)
    ensures strategy == (if AnyLazy(logo, strategyFor) then "lazy" else "eager")
  {
    var urls := LogoURLs(logo);
    for i := 0 to |urls|
      invariant forall k :: 0 <= k < i ==> strategyFor(urls[k]) != "lazy"
    {
      if strategyFor(urls[i]) == "lazy" {
        return "lazy";
      }
    }
    return "eager";
  }
}
