/**
 * The HStack layout (HStack.swift): children laid out left to right with a fixed
 * spacing, each offered the width the earlier ones left over, centred vertically.
 *
 * A child's size is whatever its own component answers for the size it is
 * offered; that component is not part of this model, so it is a parameter.
 */
module HStackComponent {
  import opened Geometry

  /** `AnyComponentWithIdentity`: an id and a component, both compared by value. */
  datatype ComponentWithIdentity = ComponentWithIdentity(id: nat, component: nat)

  datatype HStack = HStack(items: seq<ComponentWithIdentity>, spacing: real)

  /** `==`: the items, then the spacing. */
  predicate Equal(lhs: HStack, rhs: HStack)
    ensures Equal(lhs, rhs) <==> lhs.items == rhs.items && lhs.spacing == rhs.spacing
    ensures Equal(lhs, rhs) <==> lhs == rhs
  {
    if lhs.items != rhs.items then false
    else if lhs.spacing != rhs.spacing then false
    else true
  }

  /** The size a child reports when offered a size. */
  type ChildSizing = (ComponentWithIdentity, Size) -> Size

  /** The sum of the first `n` widths. */
  function WidthsBefore(sizes: seq<Size>, n: nat): real
    requires n <= |sizes|
  {
    if n == 0 then 0.0 else WidthsBefore(sizes, n - 1) + sizes[n - 1].width
  }

  /** The height fold: the largest height, starting from 0. */
  function MaxHeight(sizes: seq<Size>): real {
    if sizes == [] then 0.0 else Max(MaxHeight(sizes[..|sizes| - 1]), sizes[|sizes| - 1].height)
  }

  /** The left edge of child `i`: each earlier child's width plus one spacing. */
  function OriginX(sizes: seq<Size>, spacing: real, i: nat): real
    requires i <= |sizes|
  {
    if i == 0 then 0.0 else OriginX(sizes, spacing, i - 1) + sizes[i - 1].width + spacing
  }

  /** Child `i` sits at the sum of the widths before it plus `i` spacings. */
  lemma {:induction false} OriginXClosedForm(sizes: seq<Size>, spacing: real, i: nat)
    requires i <= |sizes|
    ensures OriginX(sizes, spacing, i) == WidthsBefore(sizes, i) + (i as real) * spacing
    decreases i
  {
    if i > 0 {
      OriginXClosedForm(sizes, spacing, i - 1);
      assert (i as real) * spacing == ((i - 1) as real) * spacing + spacing;
    }
  }

  /** The stack's width: the widths plus `count - 1` spacings (so -spacing when empty). */
  function StackWidth(sizes: seq<Size>, spacing: real): real {
    WidthsBefore(sizes, |sizes|) + spacing * ((|sizes| - 1) as real)
  }

  lemma {:induction false} MaxHeightBounds(sizes: seq<Size>)
    ensures MaxHeight(sizes) >= 0.0
    ensures forall i :: 0 <= i < |sizes| ==> sizes[i].height <= MaxHeight(sizes)
    ensures MaxHeight(sizes) == 0.0 || exists i :: 0 <= i < |sizes| && sizes[i].height == MaxHeight(sizes)
  {
    if sizes != [] {
      var init := sizes[..|sizes| - 1];
      MaxHeightBounds(init);
      assert forall i :: 0 <= i < |init| ==> init[i] == sizes[i];
    }
  }

  /** With at least one child, the returned width is exactly where the last child ends. */
  lemma LastChildEndsAtWidth(sizes: seq<Size>, spacing: real)
    requires |sizes| > 0
    ensures OriginX(sizes, spacing, |sizes| - 1) + sizes[|sizes| - 1].width == StackWidth(sizes, spacing)
  {
    OriginXClosedForm(sizes, spacing, |sizes| - 1);
  }

  /** Every child's vertical origin leaves it centred, rounded down, within the stack's height. */
  lemma VerticalOriginCentres(sizes: seq<Size>, i: nat)
    requires i < |sizes|
    ensures var y := CentredY(MaxHeight(sizes), sizes[i].height);
            0.0 <= y && y + sizes[i].height <= MaxHeight(sizes)
  {
    MaxHeightBounds(sizes);
  }

  /** The vertical origin of a child of height `h` in a stack of height `stackHeight`. */
  function CentredY(stackHeight: real, h: real): real {
    Floor((stackHeight - h) * 0.5)
  }

  /**
   * `body`: the three loops. Returns the stack's size, the size each child was
   * offered, the size each reported, and the frame each child is placed in.
   */
  method Body(stack: HStack, availableSize: Size, childSize: ChildSizing)
    returns (size: Size, offered: seq<Size>, sizes: seq<Size>, frames: seq<Rect>)
    ensures |offered| == |sizes| == |frames| == |stack.items|
    ensures forall i :: 0 <= i < |sizes| ==> sizes[i] == childSize(stack.items[i], offered[i])
    ensures forall i :: 0 <= i < |offered| ==>
              offered[i] == Size(availableSize.width - OriginX(sizes, stack.spacing, i), availableSize.height)
    ensures size == Size(StackWidth(sizes, stack.spacing), MaxHeight(sizes))
    ensures forall i :: 0 <= i < |frames| ==>
              frames[i] == Rect(Point(OriginX(sizes, stack.spacing, i), CentredY(size.height, sizes[i].height)), sizes[i])
  {
    offered, sizes := UpdateChildren(stack.items, stack.spacing, availableSize, childSize);
    size := MeasureChildren(sizes, stack.spacing);
    frames := PlaceChildren(sizes, stack.spacing, size.height);
  }

  /** The first loop: offer each child what is left of the width, in item order. */
  method UpdateChildren(items: seq<ComponentWithIdentity>, spacing: real, availableSize: Size, childSize: ChildSizing)
    returns (offered: seq<Size>, sizes: seq<Size>)
    ensures |offered| == |sizes| == |items|
    ensures forall i :: 0 <= i < |sizes| ==> sizes[i] == childSize(items[i], offered[i])
    ensures forall i :: 0 <= i < |offered| ==>
              offered[i] == Size(availableSize.width - OriginX(sizes, spacing, i), availableSize.height)
  {
    var remainingWidth := availableSize.width;
    offered, sizes := [], [];
    for k := 0 to |items|
      invariant |offered| == |sizes| == k
      invariant forall i :: 0 <= i < k ==> sizes[i] == childSize(items[i], offered[i])
      invariant forall i :: 0 <= i < k ==>
                  offered[i] == Size(availableSize.width - OriginX(sizes, spacing, i), availableSize.height)
      invariant remainingWidth == availableSize.width - OriginX(sizes, spacing, k)
    {
      var available := Size(remainingWidth, availableSize.height);
      var child := childSize(items[k], available);
      ghost var before := sizes;
      offered, sizes := offered + [available], sizes + [child];
      assert sizes[..k] == before;
      PrefixSumsExtend(sizes, k, spacing);
      remainingWidth := remainingWidth - (spacing + child.width);
    }
  }

  /** The second loop and the spacing term: the stack's size. */
  method MeasureChildren(sizes: seq<Size>, spacing: real) returns (size: Size)
    ensures size == Size(StackWidth(sizes, spacing), MaxHeight(sizes))
  {
    size := Size(0.0, 0.0);
    for k := 0 to |sizes|
      invariant size == Size(WidthsBefore(sizes, k), MaxHeight(sizes[..k]))
    {
      assert sizes[..k + 1][..k] == sizes[..k];
      size := Size(size.width + sizes[k].width, Max(size.height, sizes[k].height));
    }
    assert sizes[..|sizes|] == sizes;
    size := size.(width := size.width + spacing * ((|sizes| - 1) as real));
  }

  /** The third loop: each child's frame, left to right. */
  method PlaceChildren(sizes: seq<Size>, spacing: real, height: real) returns (frames: seq<Rect>)
    ensures |frames| == |sizes|
    ensures forall i :: 0 <= i < |frames| ==>
              frames[i] == Rect(Point(OriginX(sizes, spacing, i), CentredY(height, sizes[i].height)), sizes[i])
  {
    var nextX := 0.0;
    frames := [];
    for k := 0 to |sizes|
      invariant |frames| == k
      invariant nextX == OriginX(sizes, spacing, k)
      invariant forall i :: 0 <= i < k ==>
                  frames[i] == Rect(Point(OriginX(sizes, spacing, i), CentredY(height, sizes[i].height)), sizes[i])
    {
      frames := frames + [Rect(Point(nextX, CentredY(height, sizes[k].height)), sizes[k])];
      nextX := nextX + sizes[k].width;
      nextX := nextX + spacing;
    }
  }

  /** Appending a child leaves the earlier origins as they were. */
  lemma {:induction false} PrefixSumsExtend(sizes: seq<Size>, k: nat, spacing: real)
    requires k < |sizes|
    ensures forall i :: 0 <= i <= k ==> OriginX(sizes[..k], spacing, i) == OriginX(sizes, spacing, i)
  {
    forall i | 0 <= i <= k
      ensures OriginX(sizes[..k], spacing, i) == OriginX(sizes, spacing, i)
    {
      OriginXPrefix(sizes, k, spacing, i);
    }
  }

  lemma {:induction false} OriginXPrefix(sizes: seq<Size>, k: nat, spacing: real, i: nat)
    requires i <= k <= |sizes|
    ensures OriginX(sizes[..k], spacing, i) == OriginX(sizes, spacing, i)
    decreases i
  {
    if i > 0 { OriginXPrefix(sizes, k, spacing, i - 1); }
  }
}
