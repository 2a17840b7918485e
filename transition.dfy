/**
 * ComponentTransition (Transition.swift): an animation description plus a stack of
 * user data of arbitrary types. The struct is a value; every builder returns a
 * modified copy. Durations and curve control points are reals.
 */
module ComponentTransitions {
  import opened Wrappers

  datatype Curve = EaseInOut | Spring | Linear | Custom(c1x: real, c1y: real, c2x: real, c2y: real)

  /** `Curve.slide` */
  const Slide: Curve := Custom(0.33, 0.52, 0.25, 0.99)

  /** `Animation`: `.none`, or a curve with a duration. */
  datatype Animation = NoAnimation | CurveAnimation(duration: real, curve: Curve)

  /**
   * A user-data entry of type `Any`: the name of its dynamic type and its value.
   * Whether `x as? T` succeeds depends on the program's type hierarchy (subclasses,
   * protocol conformances), which is not part of this model: it is a relation
   * `Conforms(dynamicType, T)` passed to the lookup.
   */
  type TypeName = string
  type Conforms = (TypeName, TypeName) -> bool
  datatype UserDatum<V> = UserDatum(typeName: TypeName, value: V)

  datatype ComponentTransition<V> = ComponentTransition(animation: Animation, userDataStack: seq<UserDatum<V>>)

  /** `isImmediate` */
  predicate IsImmediate(a: Animation)
    ensures IsImmediate(a) <==> a == NoAnimation
  {
    match a
    case NoAnimation => true
    case _ => false
  }

  /** `init(animation:)`: no user data yet. */
  function Make<V>(animation: Animation): (r: ComponentTransition<V>)
    ensures r.animation == animation && r.userDataStack == []
  {
    ComponentTransition(animation, [])
  }

  /** `immediate` */
  function Immediate<V>(): (r: ComponentTransition<V>)
    ensures IsImmediate(r.animation) && r.userDataStack == []
  {
    Make(NoAnimation)
  }

  /** `easeInOut(duration:)` */
  function EaseInOutTransition<V>(duration: real): (r: ComponentTransition<V>)
    ensures r.animation == CurveAnimation(duration, EaseInOut) && !IsImmediate(r.animation)
    ensures r.userDataStack == []
  {
    Make(CurveAnimation(duration, EaseInOut))
  }

  /** `spring(duration:)` */
  function SpringTransition<V>(duration: real): (r: ComponentTransition<V>)
    ensures r.animation == CurveAnimation(duration, Spring) && !IsImmediate(r.animation)
    ensures r.userDataStack == []
  {
    Make(CurveAnimation(duration, Spring))
  }

  /**
   * The position of the most recently pushed entry that casts to `t`, searching from
   * the top of the stack down.
   */
  function LastIndexOfType<V>(stack: seq<UserDatum<V>>, t: TypeName, conforms: Conforms): (r: Option<nat>)
    ensures r.None? <==> forall i :: 0 <= i < |stack| ==> !conforms(stack[i].typeName, t)
    ensures r.Some? ==> r.value < |stack| && conforms(stack[r.value].typeName, t)
    ensures r.Some? ==> forall j :: r.value < j < |stack| ==> !conforms(stack[j].typeName, t)
  {
    if stack == [] then None
    else if conforms(stack[|stack| - 1].typeName, t) then Some(|stack| - 1)
    else LastIndexOfType(stack[..|stack| - 1], t, conforms)
  }

  /** `userData(T.self)`: the most recently pushed entry that casts to T, if any. */
  function UserData<V>(tr: ComponentTransition<V>, t: TypeName, conforms: Conforms): (r: Option<V>)
    ensures r.None? <==> forall i :: 0 <= i < |tr.userDataStack| ==> !conforms(tr.userDataStack[i].typeName, t)
    ensures r.Some? ==> exists i :: 0 <= i < |tr.userDataStack| && tr.userDataStack[i].value == r.value
                                 && conforms(tr.userDataStack[i].typeName, t)
                                 && forall j :: i < j < |tr.userDataStack| ==> !conforms(tr.userDataStack[j].typeName, t)
  {
    match LastIndexOfType(tr.userDataStack, t, conforms)
    case Some(i) => Some(tr.userDataStack[i].value)
    case None => None
  }

  /** `withUserData(_:)`: push an entry, keep the animation. */
  function WithUserData<V>(tr: ComponentTransition<V>, datum: UserDatum<V>): (r: ComponentTransition<V>)
    ensures r.animation == tr.animation
    ensures r.userDataStack == tr.userDataStack + [datum]
  {
    tr.(userDataStack := tr.userDataStack + [datum])
  }

  /** `withAnimation(_:)`: replace the animation, keep the user data. */
  function WithAnimation<V>(tr: ComponentTransition<V>, animation: Animation): (r: ComponentTransition<V>)
    ensures r.animation == animation && r.userDataStack == tr.userDataStack
  {
    tr.(animation := animation)
  }

  /** `withAnimationIfAnimated(_:)`: an immediate transition stays as it is. */
  function WithAnimationIfAnimated<V>(tr: ComponentTransition<V>, animation: Animation): (r: ComponentTransition<V>)
    ensures IsImmediate(tr.animation) ==> r == tr
    ensures !IsImmediate(tr.animation) ==> r == WithAnimation(tr, animation)
  {
    match tr.animation
    case NoAnimation => tr
    case _ => tr.(animation := animation)
  }

  /** Right after pushing a value that casts to T (its own type, say), `userData(T.self)` returns it. */
  lemma UserDataAfterPush<V>(tr: ComponentTransition<V>, datum: UserDatum<V>, t: TypeName, conforms: Conforms)
    requires conforms(datum.typeName, t)
    ensures UserData(WithUserData(tr, datum), t, conforms) == Some(datum.value)
  {
  }

  /** Pushing a value that does not cast to T does not change what `userData(T.self)` finds. */
  lemma {:induction false} UserDataOtherTypeUnchanged<V>(tr: ComponentTransition<V>, datum: UserDatum<V>, t: TypeName, conforms: Conforms)
    requires !conforms(datum.typeName, t)
    ensures UserData(WithUserData(tr, datum), t, conforms) == UserData(tr, t, conforms)
  {
    var s := tr.userDataStack + [datum];
    assert s[..|s| - 1] == tr.userDataStack;
  }

  /** Changing the animation never changes what the user data lookup finds. */
  lemma AnimationChangesKeepUserData<V>(tr: ComponentTransition<V>, a: Animation, t: TypeName, conforms: Conforms)
    ensures UserData(WithAnimation(tr, a), t, conforms) == UserData(tr, t, conforms)
    ensures UserData(WithAnimationIfAnimated(tr, a), t, conforms) == UserData(tr, t, conforms)
  {
  }

  // ---------------------------------------------------------------------------
  // Timing selection in the private `CALayer.animate` and `asTimingFunction`.

  datatype TimingFunctionName = EaseInEaseOutName | LinearName | SpringName

  /** A CAMediaTimingFunction: a named one or one from four control points. */
  datatype MediaTimingFunction = Named(name: TimingFunctionName) | ControlPoints(a: real, b: real, c: real, d: real)

  /** `asTimingFunction()`; its `.spring` case is a `preconditionFailure`. */
  function AsTimingFunction(curve: Curve): (r: MediaTimingFunction)
    requires !curve.Spring?
    ensures curve == EaseInOut ==> r == Named(EaseInEaseOutName)
    ensures curve == Linear ==> r == Named(LinearName)
    ensures curve.Custom? ==> r == ControlPoints(curve.c1x, curve.c1y, curve.c2x, curve.c2y)
    ensures r.Named? ==> r.name != SpringName
  {
    match curve
    case EaseInOut => Named(EaseInEaseOutName)
    case Linear => Named(LinearName)
    case Custom(a, b, c, d) => ControlPoints(a, b, c, d)
  }

  /** The timing name and media timing function `CALayer.animate` picks for a curve. */
  function LayerTiming(curve: Curve): (r: (TimingFunctionName, Option<MediaTimingFunction>))
    ensures curve.Spring? <==> r.0 == SpringName
    ensures curve.Spring? <==> r.1.None?
    ensures !curve.Spring? ==> r.0 == EaseInEaseOutName && r.1 == Some(AsTimingFunction(curve))
  {
    match curve
    case Spring => (SpringName, None)
    case _ => (EaseInEaseOutName, Some(AsTimingFunction(curve)))
  }

  /** `Curve.slide` is a custom curve, so layers animate it with its own control points. */
  lemma SlideTiming()
    ensures !Slide.Spring? && AsTimingFunction(Slide) == ControlPoints(0.33, 0.52, 0.25, 0.99)
    ensures LayerTiming(Slide) == (EaseInEaseOutName, Some(ControlPoints(0.33, 0.52, 0.25, 0.99)))
  {
  }
}
