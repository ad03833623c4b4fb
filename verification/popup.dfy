/** One `FWPopupView`: its type and the animations installed for it, its
    custom-layout property, whether it is inserted in the mask view, its
    look, the stored completion block, the mask settings captured when it
    was created, and the animations still in flight.

    The steps here act on the popup alone; `Lifecycle` combines them with
    the shared overlay. */
module PopupView {
  import opened Options
  import opened Geometry
  import opened Surface

  /** `FWPopupType`. */
  datatype PopupType = Alert | Sheet | Custom

  /** The identity of a completion block supplied by a caller. */
  type BlockId = nat

  type ClassName = string

  /** The class every popup is a kind of, and the one `hideAll` posts. */
  const PopupViewClass: ClassName := "FWPopupView"

  /** The superclasses of `FWPopupView`, nearest first. */
  const UIKitRoots: seq<ClassName> := ["UIView", "UIResponder", "NSObject"]

  /** An animation whose completion has not run yet. */
  datatype Pending = ShowDone | HideDone

  /** One call of the stored completion block: `isShow` is its second
      argument. */
  datatype Report = Report(block: BlockId, isShow: bool)

  /** Why `show()` traps. */
  datatype Fault = ShowAnimationUnset

  /** The container the popup is inserted into and the screen it is on. */
  datatype Host = Host(container: Rect, screenHeight: real)

  /** A popup view. `ancestry` is its class followed by all of its
      superclasses: the subclass chain, `FWPopupView`, then `UIView`,
      `UIResponder` and `NSObject`. `animation` is the type whose show and hide
      animations the `popupType` observer installed, `None` while
      `popupType` was never assigned. `hasAttachedView` is whether
      `attachedView` is non-nil. `look` holds the values the last animation
      block assigned. `alive` turns false when the object is deallocated,
      which also unsubscribes it from the hide-all notification. */
  datatype Popup = Popup(
    alive: bool,
    ancestry: seq<ClassName>,
    popupType: PopupType,
    animation: Option<PopupType>,
    property: Option<Property>,
    withKeyboard: bool,
    hasAttachedView: bool,
    inSuperview: bool,
    look: Look,
    completion: Option<BlockId>,
    originMaskColor: Color,
    originTouchWildToHide: bool,
    pending: seq<Pending>,
    reports: seq<Report>)
  {
    /** `isKind(of:)`. */
    predicate IsKind(c: ClassName) {
      c in ancestry
    }
  }

  /** A kind of each UIKit superclass of `FWPopupView`. */
  predicate IsKindOfRoots(p: Popup) {
    forall c :: c in UIKitRoots ==> p.IsKind(c)
  }

  /** What no show, hide or completion step changes. */
  predicate SameConfig(p: Popup, q: Popup) {
    p.alive == q.alive && p.ancestry == q.ancestry
    && p.popupType == q.popupType && p.animation == q.animation
    && p.withKeyboard == q.withKeyboard
    && p.originMaskColor == q.originMaskColor
    && p.originTouchWildToHide == q.originTouchWildToHide
  }

  /** The installed animations belong to the current type. */
  predicate AnimationMatchesType(p: Popup) {
    p.animation.None? || p.animation == Some(p.popupType)
  }

  /** `init(frame:)`: a live popup of the given subclass chain, type
      `.alert` with no animation installed, not in any superview, holding
      the overlay's mask colour and tap-to-hide flag as they are now. */
  function New(subclasses: seq<ClassName>, frame: Rect, maskColor: Color, touchWildToHide: bool): Popup {
    Popup(
      alive := true,
      ancestry := subclasses + [PopupViewClass] + UIKitRoots,
      popupType := Alert,
      animation := None,
      property := None,
      withKeyboard := false,
      hasAttachedView := true,
      inSuperview := false,
      look := Look(frame, Identity, 1.0, DefaultAnchor),
      completion := None,
      originMaskColor := maskColor,
      originTouchWildToHide := touchWildToHide,
      pending := [],
      reports := [])
  }

  /** Assigning `popupType`: the observer installs that type's show and hide
      animations, then the type changes. */
  function SetType(p: Popup, t: PopupType): (r: Popup)
    ensures r.popupType == t && r.animation == Some(t)
    ensures AnimationMatchesType(r)
    ensures r.(popupType := p.popupType, animation := p.animation) == p
  {
    p.(animation := Some(t), popupType := t)
  }

  /** The show and hide entry points replace the stored completion block
      only when they are given one. */
  function KeepOrReplace(stored: Option<BlockId>, given: Option<BlockId>): (r: Option<BlockId>)
    ensures given.Some? ==> r == given
    ensures given.None? ==> r == stored
  {
    if given.Some? then given else stored
  }

  /** The property a custom show uses: the popup's own, or a fresh default
      one when it has none. */
  function EffectiveProperty(p: Popup): (prop: Property)
    ensures p.property.None? ==> prop == DefaultProperty
    ensures p.property.Some? ==> prop == p.property.value
  {
    p.property.GetOr(DefaultProperty)
  }

  /** The start and end look of the show animation of type `t`. */
  function ShowMotion(t: PopupType, p: Popup, host: Host): Motion {
    match t
    case Alert => AlertShow(p.look, host.container, p.inSuperview, p.withKeyboard)
    case Sheet => SheetShow(p.look, host.screenHeight, p.inSuperview)
    case Custom => CustomShow(p.look, EffectiveProperty(p), host.container, p.inSuperview)
  }

  /** Run the show animation of type `t`: a custom popup keeps the default
      property it was given, the view is inserted if it had no superview,
      its look becomes the animation's end state and a show completion is
      now in flight. */
  function RunShow(t: PopupType, p: Popup, host: Host): (r: Popup)
    ensures r.inSuperview
    ensures r.look == ShowMotion(t, p, host).end
    ensures r.pending == p.pending + [ShowDone]
    ensures t == Custom ==> r.property == Some(EffectiveProperty(p))
    ensures t != Custom ==> r.property == p.property
    ensures SameConfig(p, r) && r.completion == p.completion && r.reports == p.reports
    ensures r.hasAttachedView == p.hasAttachedView
  {
    var q := if t == Custom then p.(property := Some(EffectiveProperty(p))) else p;
    q.(look := ShowMotion(t, p, host).end, inSuperview := true, pending := p.pending + [ShowDone])
  }

  /** `show(completionBlock:)` on the popup itself: store the block if one
      is given, resolve `attachedView`, then run the installed show
      animation, which traps when `popupType` was never assigned. */
  function Show(p: Popup, block: Option<BlockId>, host: Host): (r: Result<Popup, Fault>)
    ensures r.Failure? <==> p.animation.None?
    ensures r.Success? ==>
              && r.value.inSuperview && r.value.hasAttachedView
              && r.value.completion == KeepOrReplace(p.completion, block)
              && r.value.pending == p.pending + [ShowDone]
              && r.value.look == ShowMotion(p.animation.value, p, host).end
              && r.value.property ==
                   (if p.animation.value == Custom then Some(EffectiveProperty(p)) else p.property)
              && SameConfig(p, r.value) && r.value.reports == p.reports
  {
    var q := p.(completion := KeepOrReplace(p.completion, block), hasAttachedView := true);
    match q.animation
    case None => Failure(ShowAnimationUnset)
    case Some(t) => Success(RunShow(t, q, host))
  }

  /** The end look of the hide animation of type `t`: an alert fades out, a
      sheet slides below the screen, a custom popup keeps its look. */
  function HideLook(t: PopupType, look: Look, host: Host): (r: Look)
    ensures r.frame.w == look.frame.w && r.frame.h == look.frame.h
    ensures t == Alert ==>
              r.alpha == 0.0 && r.frame == look.frame && r.scale == look.scale
              && r.anchor == look.anchor
    ensures t == Sheet ==> r.frame.y == host.screenHeight && MovedVertically(look, r)
    ensures t == Custom ==> r == look
  {
    match t
    case Alert => FadeOut(look)
    case Sheet => SlideOff(look, host.screenHeight)
    case Custom => look
  }

  /** `hide(completionBlock:)` on the popup itself: store the block if one
      is given, resolve `attachedView`, and run the installed hide animation
      if there is one. The view stays in its superview until the animation
      completes. */
  function Hide(p: Popup, block: Option<BlockId>, host: Host): (r: Popup)
    ensures r.completion == KeepOrReplace(p.completion, block)
    ensures r.hasAttachedView && r.inSuperview == p.inSuperview
    ensures p.animation.Some? ==>
              r.pending == p.pending + [HideDone]
              && r.look == HideLook(p.animation.value, p.look, host)
    ensures p.animation.None? ==> r.pending == p.pending && r.look == p.look
    ensures SameConfig(p, r) && r.property == p.property && r.reports == p.reports
  {
    var q := p.(completion := KeepOrReplace(p.completion, block), hasAttachedView := true);
    match q.animation
    case None => q
    case Some(t) => q.(look := HideLook(t, q.look, host), pending := q.pending + [HideDone])
  }

  /** Whether completing in-flight animation `j` takes the view out of its
      superview: only a hide animation that finished does. */
  predicate Detaches(p: Popup, j: nat, finished: bool)
    requires j < |p.pending|
  {
    p.pending[j] == HideDone && finished
  }

  /** The completion of in-flight animation `j`. A hide that finished
      removes the view from its superview; then the stored completion block,
      as it is now, is called with `true` for a show and `false` for a
      hide, whether or not the animation finished. */
  function Finish(p: Popup, j: nat, finished: bool): (r: Popup)
    requires j < |p.pending|
    ensures multiset(r.pending) == multiset(p.pending) - multiset{p.pending[j]}
    ensures r.inSuperview <==> p.inSuperview && !Detaches(p, j, finished)
    ensures p.completion.Some? ==>
              r.reports == p.reports + [Report(p.completion.value, p.pending[j] == ShowDone)]
    ensures p.completion.None? ==> r.reports == p.reports
    ensures SameConfig(p, r) && r.look == p.look && r.completion == p.completion
    ensures r.property == p.property && r.hasAttachedView == p.hasAttachedView
  {
    var s := p.pending;
    assert s == s[..j] + [s[j]] + s[j + 1..];
    var rest := s[..j] + s[j + 1..];
    var reports :=
      if p.completion.Some? then p.reports + [Report(p.completion.value, s[j] == ShowDone)]
      else p.reports;
    p.(pending := rest, reports := reports,
       inSuperview := p.inSuperview && !Detaches(p, j, finished))
  }

  /** A custom hide right after a custom show leaves the view exactly as
      the show left it: a centre or corner popup stays at identity scale
      and does not shrink back to the 0.01 it was shown from. */
  lemma CustomHideKeepsShownLook(p: Popup, shown: Option<BlockId>, hidden: Option<BlockId>, host: Host)
    requires p.animation == Some(Custom)
    ensures var s := Show(p, shown, host).value;
            var h := Hide(s, hidden, host);
            && h.look == s.look
            && (!IsEdge(EffectiveProperty(p).alignment) ==>
                  h.look.scale == Identity)
  {
  }
}
