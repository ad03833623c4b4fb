/** Geometry of the popup animations: the nine custom alignments, the
    placement a custom popup gets when it is first attached, and the start
    and end state of the alert, sheet and custom show animations.

    Coordinates are `real`; UIKit's floating-point rounding is not modelled.
    A frame is the layout frame the code assigns; a scale transform is kept
    beside it and does not change it. */
module Geometry {

  datatype Point = Point(x: real, y: real)

  /** A frame: origin and size, in the container's coordinates. */
  datatype Rect = Rect(x: real, y: real, w: real, h: real) {

    function MidX(): real { x + w / 2.0 }
    function MidY(): real { y + h / 2.0 }
    function MaxX(): real { x + w }
    function MaxY(): real { y + h }

    /** The centre point, as UIKit's `center` reports it. */
    function Center(): Point { Point(MidX(), MidY()) }

    /** The frame a view gets when its `center` is assigned `c`: same size,
        moved so that its middle is `c`. */
    function CenteredAt(c: Point): (r: Rect)
      ensures r.MidX() == c.x && r.MidY() == c.y
      ensures r.w == w && r.h == h
    {
      Rect(c.x - w / 2.0, c.y - h / 2.0, w, h)
    }
  }

  /** `UIEdgeInsets`. */
  datatype Insets = Insets(top: real, left: real, bottom: real, right: real)

  /** `FWPopupCustomAlignment`, in declaration order. */
  datatype Alignment =
    | Center | Top | Left | Bottom | Right
    | TopLeft | TopRight | BottomLeft | BottomRight

  /** The cases of `FWPopupCustomAlignment` as they are declared. */
  const DeclarationOrder: seq<Alignment> :=
    [Center, Top, Left, Bottom, Right, TopLeft, TopRight, BottomLeft, BottomRight]

  /** The Objective-C raw value of an alignment: its position in the
      declaration. */
  function RawValue(a: Alignment): (n: nat)
    ensures n < |DeclarationOrder| && DeclarationOrder[n] == a
    ensures a == Center <==> n == 0
    ensures 1 <= n <= 4 <==> a == Top || a == Left || a == Bottom || a == Right
  {
    match a
    case Center => 0
    case Top => 1
    case Left => 2
    case Bottom => 3
    case Right => 4
    case TopLeft => 5
    case TopRight => 6
    case BottomLeft => 7
    case BottomRight => 8
  }

  /** Every position of the declaration is the raw value of the case
      declared there, so distinct alignments have distinct raw values. */
  lemma RawValueInjective(a: Alignment, b: Alignment)
    ensures RawValue(a) == RawValue(b) ==> a == b
    ensures forall k :: 0 <= k < |DeclarationOrder| ==> RawValue(DeclarationOrder[k]) == k
  {
  }

  /** The source's raw-value range test `top <= a <= right`: the
      alignments that grow along one axis instead of scaling. */
  predicate IsEdge(a: Alignment)
    ensures IsEdge(a) <==> a == Top || a == Left || a == Bottom || a == Right
  {
    RawValue(Top) <= RawValue(a) <= RawValue(Right)
  }

  predicate IsCorner(a: Alignment) {
    a != Center && !IsEdge(a)
  }

  predicate IsTopCorner(a: Alignment) {
    a == TopLeft || a == TopRight
  }

  /** The two fields of `FWPopupViewProperty` the geometry reads; the rest
      of the property bag is styling. */
  datatype Property = Property(alignment: Alignment, insets: Insets)

  /** A fresh `FWPopupViewProperty()`: centred, zero insets. */
  const DefaultProperty: Property := Property(Center, Insets(0.0, 0.0, 0.0, 0.0))

  /** The visible state of a popup view: its frame, the uniform scale of its
      transform, its alpha, and its layer's anchor point. */
  datatype Look = Look(frame: Rect, scale: real, alpha: real, anchor: Point)

  /** A show animation: the state it starts from and the state it ends in. */
  datatype Motion = Motion(start: Look, end: Look)

  const Identity: real := 1.0
  const AlertStartScale: real := 1.2
  const PopStartScale: real := 0.01
  /** Half the keyboard height an alert is raised by when it has a keyboard. */
  const KeyboardLift: real := 216.0 / 2.0
  const DefaultAnchor: Point := Point(0.5, 0.5)

  /** The two looks differ at most in their frame's vertical position. */
  predicate MovedVertically(a: Look, b: Look) {
    a.frame.x == b.frame.x && a.frame.w == b.frame.w && a.frame.h == b.frame.h
    && a.scale == b.scale && a.alpha == b.alpha && a.anchor == b.anchor
  }

  /** Alert show. On first attach the view is centred in the container and,
      with a keyboard, raised by `KeyboardLift`; every show then starts from
      scale 1.2 and alpha 0 and ends at identity scale and alpha 1. */
  function AlertShow(look: Look, container: Rect, attached: bool, withKeyboard: bool): (m: Motion)
    ensures !attached ==> m.start.frame.MidX() == container.MidX()
    ensures !attached ==>
              m.start.frame.MidY() == container.MidY() - (if withKeyboard then KeyboardLift else 0.0)
    ensures attached ==> m.start.frame == look.frame
    ensures m.start.frame.w == look.frame.w && m.start.frame.h == look.frame.h
    ensures m.start.scale == AlertStartScale && m.start.alpha == 0.0
    ensures m.end.scale == Identity && m.end.alpha == 1.0
    ensures m.end.frame == m.start.frame && m.end.anchor == m.start.anchor == look.anchor
  {
    var placed :=
      if attached then look.frame
      else
        var c := look.frame.CenteredAt(container.Center());
        if withKeyboard then c.(y := c.y - KeyboardLift) else c;
    var start := look.(frame := placed, scale := AlertStartScale, alpha := 0.0);
    Motion(start, start.(scale := Identity, alpha := 1.0))
  }

  /** Alert hide: fade to transparent in place. */
  function FadeOut(look: Look): (r: Look)
    ensures r.alpha == 0.0
    ensures r.frame == look.frame && r.scale == look.scale && r.anchor == look.anchor
  {
    look.(alpha := 0.0)
  }

  /** Hiding an alert right after its show animation leaves it where the
      show started, transparent, but at identity scale rather than 1.2. */
  lemma AlertFadeAfterShow(look: Look, container: Rect, attached: bool, withKeyboard: bool)
    ensures var m := AlertShow(look, container, attached, withKeyboard);
            FadeOut(m.end) == m.start.(scale := Identity)
  {
  }

  /** Sheet show. On first attach the view's top edge is put at the bottom of
      the screen; the show then slides it up until its bottom edge is the
      bottom of the screen. Only the vertical position changes. */
  function SheetShow(look: Look, screenHeight: real, attached: bool): (m: Motion)
    ensures !attached ==> m.start.frame.y == screenHeight
    ensures attached ==> m.start == look
    ensures MovedVertically(look, m.start)
    ensures m.end.frame.MaxY() == screenHeight
    ensures MovedVertically(m.start, m.end)
  {
    var start := if attached then look else look.(frame := look.frame.(y := screenHeight));
    Motion(start, start.(frame := start.frame.(y := screenHeight - start.frame.h)))
  }

  /** Sheet hide: slide down until the top edge is the bottom of the screen. */
  function SlideOff(look: Look, screenHeight: real): (r: Look)
    ensures r.frame.y == screenHeight
    ensures MovedVertically(look, r)
  {
    look.(frame := look.frame.(y := screenHeight))
  }

  /** The frame a custom popup is given by the alignment switch when it is
      first attached. Centre and edge placements keep the current position
      on one axis (shifted by the insets), and edges collapse to zero
      thickness; the corner placements here are later discarded by
      `CustomShow`. */
  function Place(f: Rect, p: Property, container: Rect): (r: Rect)
    ensures p.alignment == Center ==>
              r.MidX() == container.MidX() + p.insets.left - p.insets.right
              && r.y == p.insets.top - p.insets.bottom && r.w == f.w && r.h == f.h
    ensures p.alignment == Top || p.alignment == Bottom ==>
              r.x == f.x + p.insets.left - p.insets.right && r.w == f.w && r.h == 0.0
    ensures p.alignment == Left || p.alignment == Right ==>
              r.y == f.y + p.insets.top - p.insets.bottom && r.h == f.h && r.w == 0.0
    ensures p.alignment == Top ==> r.y == p.insets.top
    ensures p.alignment == Bottom ==> r.y == container.h - p.insets.bottom
    ensures p.alignment == Left ==> r.x == p.insets.left
    ensures p.alignment == Right ==> r.x == container.w - p.insets.right
    ensures IsCorner(p.alignment) ==> r.w == f.w && r.h == f.h
    ensures p.alignment == TopLeft || p.alignment == BottomLeft ==> r.x == p.insets.left
    ensures p.alignment == TopRight || p.alignment == BottomRight ==>
              r.x == container.w - f.w - p.insets.right
    ensures IsTopCorner(p.alignment) ==> r.y == p.insets.top
    ensures p.alignment == BottomLeft || p.alignment == BottomRight ==>
              r.y == container.h - f.h - p.insets.bottom
  {
    var i := p.insets;
    match p.alignment
    case Center =>
      var c := f.CenteredAt(container.Center());
      c.(x := c.x + i.left - i.right, y := i.top - i.bottom)
    case Top => f.(x := f.x + i.left - i.right, y := i.top, h := 0.0)
    case Left => f.(x := i.left, y := f.y + i.top - i.bottom, w := 0.0)
    case Bottom => f.(x := f.x + i.left - i.right, y := container.h - i.bottom, h := 0.0)
    case Right => f.(x := container.w - i.right, y := f.y + i.top - i.bottom, w := 0.0)
    case TopLeft => f.(x := i.left, y := i.top)
    case TopRight => f.(x := container.w - f.w - i.right, y := i.top)
    case BottomLeft => f.(x := i.left, y := container.h - f.h - i.bottom)
    case BottomRight => f.(x := container.w - f.w - i.right, y := container.h - f.h - i.bottom)
  }

  /** The edge-alignment part of the custom show animation: restore the
      collapsed dimension to the pre-show size and pin the view to its edge. */
  function Grow(f: Rect, origin: Rect, p: Property, container: Rect): Rect {
    var i := p.insets;
    match p.alignment
    case Top => f.(y := i.top, h := origin.h)
    case Left => f.(x := i.left, w := origin.w)
    case Bottom => f.(h := origin.h, y := container.h - origin.h - i.bottom)
    case Right => f.(w := origin.w, x := container.w - origin.w - i.right)
    case _ => f
  }

  /** The anchor point a corner popup scales from: the middle of its top
      edge for the top corners, of its bottom edge for the bottom ones. */
  function CornerAnchor(a: Alignment): Point {
    Point(0.5, if IsTopCorner(a) then 0.0 else 1.0)
  }

  /** Custom show, from the pre-show look `look`. When not yet attached the
      view is first placed: centre and corners then scale up from 0.01 (the
      corners from the pre-show frame itself, anchored on a horizontal
      edge), and edges grow their collapsed dimension back while pinned to
      their edge. When already attached the animation runs from the current
      look. Whatever the alignment, the size after the show is the size
      before it. */
  function CustomShow(look: Look, p: Property, container: Rect, attached: bool): (m: Motion)
    ensures attached ==> m.start == look
    ensures m.end.frame.w == look.frame.w && m.end.frame.h == look.frame.h
    ensures m.end.alpha == m.start.alpha == look.alpha
    // centre
    ensures p.alignment == Center && !attached ==>
              m.end.frame.MidX() == container.MidX() + p.insets.left - p.insets.right
              && m.end.frame.y == p.insets.top - p.insets.bottom
              && m.start.scale == PopStartScale && m.start.anchor == look.anchor
    // centre and corners scale to identity in place
    ensures !IsEdge(p.alignment) ==>
              m.end.scale == Identity && m.end.frame == m.start.frame
              && m.end.anchor == m.start.anchor
    // corners ignore the insets and keep the pre-show frame
    ensures IsCorner(p.alignment) && !attached ==>
              m.start.frame == look.frame && m.start.scale == PopStartScale
              && m.start.anchor == CornerAnchor(p.alignment)
    // edges never touch the transform
    ensures IsEdge(p.alignment) ==>
              m.start.scale == m.end.scale == look.scale
              && m.start.anchor == m.end.anchor == look.anchor
    // edges: final position
    ensures p.alignment == Top ==> m.end.frame.y == p.insets.top
    ensures p.alignment == Bottom ==> m.end.frame.MaxY() == container.h - p.insets.bottom
    ensures p.alignment == Left ==> m.end.frame.x == p.insets.left
    ensures p.alignment == Right ==> m.end.frame.MaxX() == container.w - p.insets.right
    ensures p.alignment == Top || p.alignment == Bottom ==>
              m.end.frame.x == look.frame.x + (if attached then 0.0 else p.insets.left - p.insets.right)
    ensures p.alignment == Left || p.alignment == Right ==>
              m.end.frame.y == look.frame.y + (if attached then 0.0 else p.insets.top - p.insets.bottom)
    // edges: growth from zero thickness, from the edge the view is pinned to
    ensures (p.alignment == Top || p.alignment == Bottom) && !attached ==>
              m.start.frame.h == 0.0 && m.start.frame.x == m.end.frame.x
              && m.start.frame.w == m.end.frame.w
    ensures (p.alignment == Left || p.alignment == Right) && !attached ==>
              m.start.frame.w == 0.0 && m.start.frame.y == m.end.frame.y
              && m.start.frame.h == m.end.frame.h
    ensures p.alignment == Top && !attached ==> m.start.frame.y == m.end.frame.y
    ensures p.alignment == Bottom && !attached ==> m.start.frame.y == m.end.frame.MaxY()
    ensures p.alignment == Left && !attached ==> m.start.frame.x == m.end.frame.x
    ensures p.alignment == Right && !attached ==> m.start.frame.x == m.end.frame.MaxX()
  {
    var a := p.alignment;
    var origin := look.frame;
    var start :=
      if attached then look
      else
        var placed := look.(frame := Place(origin, p, container));
        if a == Center then placed.(scale := PopStartScale)
        else if IsEdge(a) then placed
        else placed.(anchor := CornerAnchor(a), frame := origin, scale := PopStartScale);
    var end :=
      if IsEdge(a) then start.(frame := Grow(start.frame, origin, p, container))
      else start.(scale := Identity);
    Motion(start, end)
  }
}
