/**
 * The Button component (Button.swift): an immutable description with builder
 * methods and an equality that ignores its closures, and a view whose highlight
 * and hold-action flag follow touch tracking.
 *
 * Closures, the content component and the tag object are opaque references here.
 * Calls the view makes into them are recorded, in order, in its `effects` log.
 */
module ButtonComponent {
  import opened Wrappers
  import opened Geometry

  /** `AnyComponent<Empty>`, compared by value. */
  type ContentRef = nat
  /** An object, compared by identity (`===`). */
  type ObjectRef = nat
  /** A closure or an action slot; never compared. */
  type ClosureRef = nat

  datatype Button = Button(
    content: ContentRef,
    minSize: Option<Size>,
    tag: Option<ObjectRef>,
    automaticHighlight: bool,
    isEnabled: bool,
    isExclusive: bool,
    action: ClosureRef,
    holdAction: Option<ClosureRef>,
    highlightedAction: Option<ClosureRef>)

  /** The public initialiser: no minimum size, no tag, exclusive, no hold action. */
  function NewButton(content: ContentRef, isEnabled: bool, automaticHighlight: bool,
                     action: ClosureRef, highlightedAction: Option<ClosureRef>): (r: Button)
    ensures r.minSize.None? && r.tag.None? && r.holdAction.None? && r.isExclusive
    ensures r.content == content && r.isEnabled == isEnabled && r.automaticHighlight == automaticHighlight
    ensures r.action == action && r.highlightedAction == highlightedAction
  {
    Button(content, None, None, automaticHighlight, isEnabled, true, action, None, highlightedAction)
  }

  /** The public initialiser called with its defaults: enabled, highlighting, no highlighted action. */
  function NewDefaultButton(content: ContentRef, action: ClosureRef): (r: Button)
    ensures r.isEnabled && r.automaticHighlight && r.highlightedAction.None?
    ensures r.minSize.None? && r.tag.None? && r.holdAction.None? && r.isExclusive
    ensures r.content == content && r.action == action
  {
    NewButton(content, true, true, action, None)
  }

  // ---------------------------------------------------------------------------
  // Builders: each rebuilds the button from every field, replacing one.

  function MinSize(b: Button, minSize: Option<Size>): (r: Button)
    ensures r == b.(minSize := minSize)
  {
    Button(b.content, minSize, b.tag, b.automaticHighlight, b.isEnabled, b.isExclusive,
           b.action, b.holdAction, b.highlightedAction)
  }

  function WithIsExclusive(b: Button, isExclusive: bool): (r: Button)
    ensures r == b.(isExclusive := isExclusive)
  {
    Button(b.content, b.minSize, b.tag, b.automaticHighlight, b.isEnabled, isExclusive,
           b.action, b.holdAction, b.highlightedAction)
  }

  function WithHoldAction(b: Button, holdAction: Option<ClosureRef>): (r: Button)
    ensures r == b.(holdAction := holdAction)
  {
    Button(b.content, b.minSize, b.tag, b.automaticHighlight, b.isEnabled, b.isExclusive,
           b.action, holdAction, b.highlightedAction)
  }

  function Tagged(b: Button, tag: ObjectRef): (r: Button)
    ensures r == b.(tag := Some(tag))
  {
    Button(b.content, b.minSize, Some(tag), b.automaticHighlight, b.isEnabled, b.isExclusive,
           b.action, b.holdAction, b.highlightedAction)
  }

  // ---------------------------------------------------------------------------
  // Equality.

  /** The button with every closure blanked out. */
  function WithoutClosures(b: Button): Button {
    b.(action := 0, holdAction := None, highlightedAction := None)
  }

  /** `==`: field by field, skipping the three closures. */
  predicate Equal(lhs: Button, rhs: Button)
    ensures Equal(lhs, rhs) <==> WithoutClosures(lhs) == WithoutClosures(rhs)
  {
    if lhs.content != rhs.content then false
    else if lhs.minSize != rhs.minSize then false
    else if lhs.tag != rhs.tag then false
    else if lhs.automaticHighlight != rhs.automaticHighlight then false
    else if lhs.isEnabled != rhs.isEnabled then false
    else if lhs.isExclusive != rhs.isExclusive then false
    else true
  }

  /** Setting or clearing the hold action never makes a button unequal to itself. */
  lemma WithHoldActionStaysEqual(b: Button, h: Option<ClosureRef>, a: ClosureRef)
    ensures Equal(WithHoldAction(b, h), b)
    ensures Equal(b.(action := a, highlightedAction := h), b)
  {
  }

  lemma EqualIsEquivalence(a: Button, b: Button, c: Button)
    ensures Equal(a, a)
    ensures Equal(a, b) ==> Equal(b, a)
    ensures Equal(a, b) && Equal(b, c) ==> Equal(a, c)
  {
  }

  /** The other builders change what `==` sees, unless the value was already there. */
  lemma BuildersChangeEquality(b: Button, m: Option<Size>, x: bool, t: ObjectRef)
    ensures Equal(MinSize(b, m), b) <==> m == b.minSize
    ensures Equal(WithIsExclusive(b, x), b) <==> x == b.isExclusive
    ensures Equal(Tagged(b, t), b) <==> b.tag == Some(t)
  {
  }

  // ---------------------------------------------------------------------------
  // Alpha and size.

  /** The content alpha `updateAlpha` sets. */
  function ContentAlpha(component: Button, highlighted: bool): (r: real)
    ensures r == 0.3 <==> !component.isEnabled
    ensures r == 0.6 <==> component.isEnabled && component.automaticHighlight && highlighted
    ensures r == 1.0 <==> component.isEnabled && !(component.automaticHighlight && highlighted)
  {
    if component.isEnabled then
      if component.automaticHighlight then (if highlighted then 0.6 else 1.0) else 1.0
    else 0.3
  }

  /** The size `update` returns: the content size, raised to `minSize` where given. */
  function ButtonSize(contentSize: Size, minSize: Option<Size>): (r: Size)
    ensures r.width >= contentSize.width && r.height >= contentSize.height
    ensures minSize.Some? ==> r.width >= minSize.value.width && r.height >= minSize.value.height
    ensures r.width == contentSize.width || (minSize.Some? && r.width == minSize.value.width)
    ensures r.height == contentSize.height || (minSize.Some? && r.height == minSize.value.height)
  {
    match minSize
    case Some(m) => Size(Max(contentSize.width, m.width), Max(contentSize.height, m.height))
    case None => contentSize
  }

  // ---------------------------------------------------------------------------
  // The view.

  /** Calls the view makes, in order. */
  datatype Effect =
    | ActionCalled(action: ClosureRef)
    | HighlightedActionInvoked(slot: ClosureRef, highlighted: bool)
    | AlphaSet(alpha: real)

  /**
   * What the `currentIsHighlighted` observer does when the flag is set from `oldValue`
   * to `newValue`: on an actual change with a component, the alpha refresh (when
   * highlighting is automatic) and then the highlighted-action call (when there is a slot).
   */
  function HighlightEffects(component: Option<Button>, oldValue: bool, newValue: bool): (r: seq<Effect>)
    ensures component.None? || oldValue == newValue ==> r == []
    ensures component.Some? && oldValue != newValue ==>
              var c := component.value;
              && |r| == (if c.automaticHighlight then 1 else 0) + (if c.highlightedAction.Some? then 1 else 0)
              && (AlphaSet(ContentAlpha(c, newValue)) in r <==> c.automaticHighlight)
              && (c.automaticHighlight ==> r[0] == AlphaSet(ContentAlpha(c, newValue)))
              && (c.highlightedAction.Some? ==> r[|r| - 1] == HighlightedActionInvoked(c.highlightedAction.value, newValue))
  {
    match component
    case None => []
    case Some(c) =>
      if newValue == oldValue then []
      else
        (if c.automaticHighlight then [AlphaSet(ContentAlpha(c, newValue))] else [])
        + (match c.highlightedAction
           case Some(slot) => [HighlightedActionInvoked(slot, newValue)]
           case None => [])
  }

  /** How often `action` appears in an effect log. */
  function ActionCalls(effects: seq<Effect>, action: ClosureRef): nat {
    multiset(effects)[ActionCalled(action)]
  }

  lemma ActionCallsAppend(x: seq<Effect>, y: seq<Effect>, action: ClosureRef)
    ensures ActionCalls(x + y, action) == ActionCalls(x, action) + ActionCalls(y, action)
  {
    assert multiset(x + y) == multiset(x) + multiset(y);
  }

  /** Highlight effects in between do not change how often `action` fires over a touch. */
  lemma OneActionPerTouch(before: seq<Effect>, h1: seq<Effect>, fired: seq<Effect>, h2: seq<Effect>,
                          pressed: seq<Effect>, action: ClosureRef)
    requires ActionCalls(h1, action) == 0 && ActionCalls(h2, action) == 0
    requires ActionCalls(fired, action) + ActionCalls(pressed, action) == 1
    ensures ActionCalls(before + h1 + fired + h2 + pressed, action) == ActionCalls(before, action) + 1
  {
    ActionCallsAppend(before, h1, action);
    ActionCallsAppend(before + h1, fired, action);
    ActionCallsAppend(before + h1 + fired, h2, action);
    ActionCallsAppend(before + h1 + fired + h2, pressed, action);
  }

  lemma HighlightEffectsCallNoAction(component: Option<Button>, oldValue: bool, newValue: bool, action: ClosureRef)
    ensures ActionCalls(HighlightEffects(component, oldValue, newValue), action) == 0
  {
  }

  class View {
    var component: Option<Button>
    var currentIsHighlighted: bool
    var holdActionTriggerred: bool
    /** Whether `holdActionTimer` holds a scheduled timer. */
    var holdActionTimerScheduled: bool
    /** UIControl's `isEnabled` and `isExclusiveTouch`. */
    var isEnabled: bool
    var isExclusiveTouch: bool
    var contentFrame: Rect
    var effects: seq<Effect>

    constructor ()
      ensures component.None? && !currentIsHighlighted && !holdActionTriggerred && !holdActionTimerScheduled
      ensures effects == []
    {
      component := None;
      currentIsHighlighted := false;
      holdActionTriggerred := false;
      holdActionTimerScheduled := false;
      isEnabled := true;
      isExclusiveTouch := false;
      contentFrame := Rect(Point(0.0, 0.0), Size(0.0, 0.0));
      effects := [];
    }

    /** Assigning `currentIsHighlighted`, with its `didSet` observer. */
    method SetCurrentIsHighlighted(value: bool)
      modifies this`currentIsHighlighted, this`effects
      ensures currentIsHighlighted == value
      ensures effects == old(effects) + HighlightEffects(component, old(currentIsHighlighted), value)
    {
      var oldValue := currentIsHighlighted;
      currentIsHighlighted := value;
      if component.Some? {
        var c := component.value;
        if currentIsHighlighted != oldValue {
          if c.automaticHighlight {
            UpdateAlpha();
          }
          if c.highlightedAction.Some? {
            effects := effects + [HighlightedActionInvoked(c.highlightedAction.value, currentIsHighlighted)];
          }
        }
      }
    }

    /** `updateAlpha(transition:)`; the transition only animates the change and is left out. */
    method UpdateAlpha()
      modifies this`effects
      ensures effects == old(effects) + match component
                                        case Some(c) => [AlphaSet(ContentAlpha(c, currentIsHighlighted))]
                                        case None => []
    {
      if component.Some? {
        var alpha := ContentAlpha(component.value, currentIsHighlighted);
        effects := effects + [AlphaSet(alpha)];
      }
    }

    /** `pressed` (touch up inside): a press that started a hold action only clears the flag. */
    method Pressed()
      modifies this`holdActionTriggerred, this`effects
      ensures old(holdActionTriggerred) ==> !holdActionTriggerred && effects == old(effects)
      ensures !old(holdActionTriggerred) ==>
                holdActionTriggerred == old(holdActionTriggerred) &&
                effects == old(effects) + match component
                                          case Some(c) => [ActionCalled(c.action)]
                                          case None => []
    {
      if holdActionTriggerred {
        holdActionTriggerred := false;
      } else if component.Some? {
        effects := effects + [ActionCalled(component.value.action)];
      }
    }

    /**
     * `beginTracking`: highlight, then, with a hold action, fire `action` at once and
     * schedule the hold timer. The value returned by the superclass is left out.
     */
    method BeginTracking()
      modifies this`currentIsHighlighted, this`holdActionTriggerred, this`holdActionTimerScheduled, this`effects
      ensures currentIsHighlighted
      ensures var hold := component.Some? && component.value.holdAction.Some?;
        && holdActionTriggerred == hold
        && holdActionTimerScheduled == (hold || old(holdActionTimerScheduled))
        && effects == old(effects) + HighlightEffects(component, old(currentIsHighlighted), true)
                      + (if hold then [ActionCalled(component.value.action)] else [])
    {
      SetCurrentIsHighlighted(true);
      holdActionTriggerred := false;
      if component.Some? && component.value.holdAction.Some? {
        holdActionTriggerred := true;
        effects := effects + [ActionCalled(component.value.action)];
        holdActionTimerScheduled := true;
      }
    }

    /** `endTracking`: unhighlight and drop the hold timer. */
    method EndTracking()
      modifies this`currentIsHighlighted, this`holdActionTimerScheduled, this`effects
      ensures !currentIsHighlighted && !holdActionTimerScheduled
      ensures effects == old(effects) + HighlightEffects(component, old(currentIsHighlighted), false)
    {
      SetCurrentIsHighlighted(false);
      holdActionTimerScheduled := false;
    }

    /** `cancelTracking`: the same as `endTracking`. */
    method CancelTracking()
      modifies this`currentIsHighlighted, this`holdActionTimerScheduled, this`effects
      ensures !currentIsHighlighted && !holdActionTimerScheduled
      ensures effects == old(effects) + HighlightEffects(component, old(currentIsHighlighted), false)
    {
      SetCurrentIsHighlighted(false);
      holdActionTimerScheduled := false;
    }

    /**
     * A touch that begins and ends inside the button: `beginTracking`, `endTracking`,
     * then `pressed` from touch-up-inside. It fires `action` exactly once, hold action
     * or not, and leaves the button unhighlighted with no hold flag and no timer.
     */
    method TouchUpInside()
      requires component.Some?
      modifies this`currentIsHighlighted, this`holdActionTriggerred, this`holdActionTimerScheduled, this`effects
      ensures ActionCalls(effects, component.value.action) == ActionCalls(old(effects), component.value.action) + 1
      ensures !holdActionTriggerred && !currentIsHighlighted && !holdActionTimerScheduled
    {
      ghost var a := component.value.action;
      ghost var hold := component.value.holdAction.Some?;
      ghost var before := effects;
      ghost var h1 := HighlightEffects(component, currentIsHighlighted, true);
      ghost var h2 := HighlightEffects(component, true, false);
      BeginTracking();
      ghost var fired := if hold then [ActionCalled(a)] else [];
      assert effects == before + h1 + fired;
      EndTracking();
      assert effects == before + h1 + fired + h2;
      ghost var mid := effects;
      Pressed();
      ghost var pressed := if hold then [] else [ActionCalled(a)];
      assert effects == mid + pressed;
      HighlightEffectsCallNoAction(component, old(currentIsHighlighted), true, a);
      HighlightEffectsCallNoAction(component, true, false, a);
      OneActionPerTouch(before, h1, fired, h2, pressed, a);
    }

    /**
     * `update(component:availableSize:...)`. The size the content view reports is a
     * parameter, since the content component is not part of this model.
     */
    method Update(newComponent: Button, availableSize: Size, contentSize: Size) returns (size: Size)
      modifies this`component, this`effects, this`isEnabled, this`isExclusiveTouch, this`contentFrame
      ensures size == ButtonSize(contentSize, newComponent.minSize)
      ensures component == Some(newComponent)
      ensures effects == old(effects) + [AlphaSet(ContentAlpha(newComponent, currentIsHighlighted))]
      ensures isEnabled == newComponent.isEnabled && isExclusiveTouch == newComponent.isExclusive
      ensures contentFrame == Rect(Point(Floor((size.width - contentSize.width) / 2.0),
                                         Floor((size.height - contentSize.height) / 2.0)), contentSize)
      ensures contentFrame.origin.x >= 0.0 && contentFrame.origin.y >= 0.0
    {
      size := contentSize;
      if newComponent.minSize.Some? {
        var minSize := newComponent.minSize.value;
        size := Size(Max(size.width, minSize.width), Max(size.height, minSize.height));
      }
      component := Some(newComponent);
      UpdateAlpha();
      isEnabled := newComponent.isEnabled;
      isExclusiveTouch := newComponent.isExclusive;
      contentFrame := Rect(Point(Floor((size.width - contentSize.width) / 2.0),
                                 Floor((size.height - contentSize.height) / 2.0)), contentSize);
    }

    /**
     * `matches(tag:)`: the component's tag is this very object. The source accepts any value
     * and boxes it `as AnyObject`; a boxed value type is a fresh object that never matches,
     * so only object tags are passed here.
     */
    function Matches(tag: ObjectRef): (r: bool)
      reads this
      ensures r <==> component.Some? && component.value.tag == Some(tag)
    {
      match component
      case Some(c) => (match c.tag case Some(t) => t == tag case None => false)
      case None => false
    }
  }
}
