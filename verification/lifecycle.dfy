/** The show/hide lifecycle: every popup ever created, the one shared
    overlay they are shown on, and the operations callers and the animation
    system perform on them.

    A popup is named by its index in `popups`; popups are never removed
    from the sequence, a deallocated one is only marked dead. */
module Lifecycle {
  import opened Options
  import opened Geometry
  import opened Surface
  import opened PopupView

  datatype World = World(host: Host, overlay: Overlay, popups: seq<Popup>)

  /** The states the operations below keep: the mask view holds each view
      at most once and holds exactly the popups that believe they are in
      it, installed animations match the type, every popup is a kind of
      `FWPopupView` and of each of its UIKit superclasses, and a dead popup
      is neither inserted nor animating. */
  ghost predicate Valid(w: World) {
    && NoDup(w.overlay.subviews)
    && (forall v :: v in w.overlay.subviews ==> v < |w.popups|)
    && (forall i :: 0 <= i < |w.popups| ==> (i in w.overlay.subviews <==> w.popups[i].inSuperview))
    && (forall i :: 0 <= i < |w.popups| ==> PopupOk(w.popups[i]))
  }

  ghost predicate PopupOk(p: Popup) {
    && AnimationMatchesType(p)
    && p.IsKind(PopupViewClass)
    && IsKindOfRoots(p)
    && (!p.alive ==> !p.inSuperview && p.pending == [])
  }

  /** A popup a caller can still send messages to. */
  predicate Live(w: World, i: nat) {
    i < |w.popups| && w.popups[i].alive
  }

  /** The world before any popup exists. */
  function Initial(host: Host, maskColor: Color, touchWildToHide: bool): (w: World)
    ensures Valid(w) && w.popups == []
    ensures w.overlay.maskHidden
  {
    World(host, Overlay(true, maskColor, touchWildToHide, []), [])
  }

  /** The popup at `i` replaced by `p`, nothing else changed. */
  function Put(w: World, i: nat, p: Popup): (r: World)
    requires i < |w.popups|
    ensures |r.popups| == |w.popups| && r.popups[i] == p
    ensures forall k :: 0 <= k < |w.popups| && k != i ==> r.popups[k] == w.popups[k]
    ensures r.host == w.host && r.overlay == w.overlay
  {
    w.(popups := w.popups[i := p])
  }

  /** `init(frame:)`: a new popup, subscribed to hide-all notifications,
      that remembers the overlay's current mask colour and tap-to-hide flag
      so that hiding it can restore them. */
  function Create(w: World, subclasses: seq<ClassName>, frame: Rect): (r: World)
    ensures |r.popups| == |w.popups| + 1 && r.popups[..|w.popups|] == w.popups
    ensures r.overlay == w.overlay && r.host == w.host
    ensures var p := r.popups[|w.popups|];
            && p.alive && p.IsKind(PopupViewClass)
            && IsKindOfRoots(p)
            && p.originMaskColor == w.overlay.maskColor
            && p.originTouchWildToHide == w.overlay.touchWildToHide
            && p.popupType == Alert && p.animation.None?
            && !p.inSuperview && p.pending == [] && p.completion.None?
            && p.look.frame == frame
            && p.property.None? && !p.withKeyboard && p.hasAttachedView
            && (forall c :: p.IsKind(c) <==> c in subclasses || c == PopupViewClass || c in UIKitRoots)
            && p.look == Look(frame, Identity, 1.0, DefaultAnchor)
            && p.reports == []
    ensures Valid(w) ==> Valid(r)
  {
    var p := New(subclasses, frame, w.overlay.maskColor, w.overlay.touchWildToHide);
    assert p.IsKind(PopupViewClass) by {
      assert p.ancestry[|subclasses|] == PopupViewClass;
    }
    var r := w.(popups := w.popups + [p]);
    assert forall i :: 0 <= i < |w.popups| ==> r.popups[i] == w.popups[i];
    r
  }

  /** Assigning `popupType`: installs that type's animations. */
  function SetPopupType(w: World, i: nat, t: PopupType): (r: World)
    requires Live(w, i)
    ensures |r.popups| == |w.popups|
    ensures r.popups[i].popupType == t && r.popups[i].animation == Some(t)
    ensures r.popups[i].(popupType := w.popups[i].popupType, animation := w.popups[i].animation)
            == w.popups[i]
    ensures forall k :: 0 <= k < |w.popups| && k != i ==> r.popups[k] == w.popups[k]
    ensures r.overlay == w.overlay && r.host == w.host
    ensures Valid(w) ==> Valid(r)
  {
    Put(w, i, SetType(w.popups[i], t))
  }

  /** Assigning `vProperty`. */
  function SetProperty(w: World, i: nat, property: Option<Property>): (r: World)
    requires Live(w, i)
    ensures |r.popups| == |w.popups|
    ensures r.popups[i].property == property
    ensures r.popups[i].(property := w.popups[i].property) == w.popups[i]
    ensures forall k :: 0 <= k < |w.popups| && k != i ==> r.popups[k] == w.popups[k]
    ensures r.overlay == w.overlay && r.host == w.host
    ensures Valid(w) ==> Valid(r)
  {
    Put(w, i, w.popups[i].(property := property))
  }

  /** Assigning `withKeyboard`. */
  function SetWithKeyboard(w: World, i: nat, withKeyboard: bool): (r: World)
    requires Live(w, i)
    ensures |r.popups| == |w.popups|
    ensures r.popups[i].withKeyboard == withKeyboard
    ensures r.popups[i].(withKeyboard := w.popups[i].withKeyboard) == w.popups[i]
    ensures forall k :: 0 <= k < |w.popups| && k != i ==> r.popups[k] == w.popups[k]
    ensures r.overlay == w.overlay && r.host == w.host
    ensures Valid(w) ==> Valid(r)
  {
    Put(w, i, w.popups[i].(withKeyboard := withKeyboard))
  }

  /** Assigning the view's `frame`. */
  function SetFrame(w: World, i: nat, frame: Rect): (r: World)
    requires Live(w, i)
    ensures |r.popups| == |w.popups|
    ensures r.popups[i].look.frame == frame
    ensures r.popups[i].look.(frame := w.popups[i].look.frame) == w.popups[i].look
    ensures r.popups[i].(look := w.popups[i].look) == w.popups[i]
    ensures forall k :: 0 <= k < |w.popups| && k != i ==> r.popups[k] == w.popups[k]
    ensures r.overlay == w.overlay && r.host == w.host
    ensures Valid(w) ==> Valid(r)
  {
    Put(w, i, w.popups[i].(look := w.popups[i].look.(frame := frame)))
  }

  /** Assigning `nil` to `attachedView`. */
  function ClearAttachedView(w: World, i: nat): (r: World)
    requires Live(w, i)
    ensures |r.popups| == |w.popups|
    ensures !r.popups[i].hasAttachedView
    ensures r.popups[i].(hasAttachedView := w.popups[i].hasAttachedView) == w.popups[i]
    ensures forall k :: 0 <= k < |w.popups| && k != i ==> r.popups[k] == w.popups[k]
    ensures r.overlay == w.overlay && r.host == w.host
    ensures Valid(w) ==> Valid(r)
  {
    Put(w, i, w.popups[i].(hasAttachedView := false))
  }

  /** Assigning `fwMaskViewColor` on the overlay. */
  function SetMaskColor(w: World, c: Color): (r: World)
    ensures r.overlay.maskColor == c && r.popups == w.popups
    ensures r.overlay.(maskColor := w.overlay.maskColor) == w.overlay && r.host == w.host
    ensures Valid(w) ==> Valid(r)
  {
    w.(overlay := w.overlay.(maskColor := c))
  }

  /** Assigning `touchWildToHide` on the overlay. */
  function SetTouchWildToHide(w: World, b: bool): (r: World)
    ensures r.overlay.touchWildToHide == b && r.popups == w.popups
    ensures r.overlay.(touchWildToHide := w.overlay.touchWildToHide) == w.overlay && r.host == w.host
    ensures Valid(w) ==> Valid(r)
  {
    w.(overlay := w.overlay.(touchWildToHide := b))
  }

  /** `visible`: a popup reports the state of the shared mask, not its own;
      without an attached view it is not visible. */
  function Visible(w: World, i: nat): (b: bool)
    requires i < |w.popups|
    ensures !w.popups[i].hasAttachedView ==> !b
    ensures w.popups[i].hasAttachedView ==> (b <==> !w.overlay.maskHidden)
  {
    w.popups[i].hasAttachedView && !w.overlay.maskHidden
  }

  /** `show(completionBlock:)`: store the block if one is given, reveal the
      mask and run the installed show animation, inserting the view into
      the mask view only when it has no superview. Traps when `popupType`
      was never assigned. */
  function Show(w: World, i: nat, block: Option<BlockId>): (r: Result<World, Fault>)
    requires Live(w, i)
    ensures r.Failure? <==> w.popups[i].animation.None?
    ensures r.Success? ==>
              && |r.value.popups| == |w.popups| && r.value.host == w.host
              && Visible(r.value, i)
              && r.value.overlay.subviews ==
                   (if w.popups[i].inSuperview then w.overlay.subviews
                    else w.overlay.subviews + [i])
              && r.value.overlay.maskColor == w.overlay.maskColor
              && r.value.overlay.touchWildToHide == w.overlay.touchWildToHide
              && r.value.popups[i].completion == KeepOrReplace(w.popups[i].completion, block)
              && r.value.popups[i].pending == w.popups[i].pending + [ShowDone]
              && (forall k :: 0 <= k < |w.popups| && k != i ==> r.value.popups[k] == w.popups[k])
    ensures r.Success? ==> r.value.popups[i] == PopupView.Show(w.popups[i], block, w.host).value
    ensures Valid(w) && r.Success? ==> Valid(r.value) && i in r.value.overlay.subviews
  {
    var p := w.popups[i];
    match PopupView.Show(p, block, w.host)
    case Failure(f) => Failure(f)
    case Success(q) =>
      var subviews :=
        if p.inSuperview then w.overlay.subviews
        else w.overlay.subviews + [i];
      var overlay := ShowBackground(w.overlay).(subviews := subviews);
      Success(w.(overlay := overlay, popups := w.popups[i := q]))
  }

  /** The overlay once popup `p` has hidden: mask hidden, and the mask
      colour and tap-to-hide flag back to what `p` saw when it was
      created. */
  function Restored(o: Overlay, p: Popup): (r: Overlay)
    ensures r.maskHidden && r.subviews == o.subviews
    ensures r.maskColor == p.originMaskColor
    ensures r.touchWildToHide == p.originTouchWildToHide
  {
    HideBackground(o).(maskColor := p.originMaskColor, touchWildToHide := p.originTouchWildToHide)
  }

  /** `hide(completionBlock:)`: store the block if one is given, hide the
      mask, run the installed hide animation if any, and at once restore
      the mask colour and tap-to-hide flag captured at creation. The view
      leaves the mask view only when the hide animation completes. */
  function Hide(w: World, i: nat, block: Option<BlockId>): (r: World)
    requires Live(w, i)
    ensures |r.popups| == |w.popups| && r.host == w.host
    ensures !Visible(r, i)
    ensures r.overlay.maskColor == w.popups[i].originMaskColor
    ensures r.overlay.touchWildToHide == w.popups[i].originTouchWildToHide
    ensures r.overlay.subviews == w.overlay.subviews && r.popups[i].inSuperview == w.popups[i].inSuperview
    ensures r.popups[i].pending ==
              w.popups[i].pending + (if w.popups[i].animation.Some? then [HideDone] else [])
    ensures r.popups[i].completion == KeepOrReplace(w.popups[i].completion, block)
    ensures forall k :: 0 <= k < |w.popups| && k != i ==> r.popups[k] == w.popups[k]
    ensures r.overlay == Restored(w.overlay, w.popups[i])
    ensures r.popups[i] == PopupView.Hide(w.popups[i], block, w.host)
    ensures Valid(w) ==> Valid(r)
  {
    var p := w.popups[i];
    w.(overlay := Restored(w.overlay, p), popups := w.popups[i := PopupView.Hide(p, block, w.host)])
  }

  /** The completion of animation `j` of popup `i`: a finished hide takes the
      view out of the mask view, then the stored block is reported. */
  function Finish(w: World, i: nat, j: nat, finished: bool): (r: World)
    requires i < |w.popups| && j < |w.popups[i].pending|
    ensures |r.popups| == |w.popups| && r.host == w.host
    ensures Detaches(w.popups[i], j, finished) ==>
              i !in r.overlay.subviews && !r.popups[i].inSuperview
              && r.overlay.subviews == RemoveSubview(w.overlay.subviews, i)
    ensures !Detaches(w.popups[i], j, finished) ==>
              r.overlay.subviews == w.overlay.subviews
              && r.popups[i].inSuperview == w.popups[i].inSuperview
    ensures forall v :: v != i ==> (v in r.overlay.subviews <==> v in w.overlay.subviews)
    ensures r.overlay.maskHidden == w.overlay.maskHidden
    ensures r.overlay.maskColor == w.overlay.maskColor
    ensures r.overlay.touchWildToHide == w.overlay.touchWildToHide
    ensures r.popups[i] == PopupView.Finish(w.popups[i], j, finished)
    ensures forall k :: 0 <= k < |w.popups| && k != i ==> r.popups[k] == w.popups[k]
    ensures Valid(w) ==> Valid(r)
  {
    var p := w.popups[i];
    var subviews :=
      if Detaches(p, j, finished) then RemoveSubview(w.overlay.subviews, i)
      else w.overlay.subviews;
    w.(overlay := w.overlay.(subviews := subviews), popups := w.popups[i := PopupView.Finish(p, j, finished)])
  }

  /** Deallocation when the caller lets go of popup `i`. A view still held
      by the mask view or by an animation in flight stays alive; otherwise
      it dies and stops receiving hide-all notifications. */
  function Release(w: World, i: nat): (r: World)
    requires i < |w.popups|
    ensures |r.popups| == |w.popups|
    ensures r.popups[i].alive <==>
              w.popups[i].alive && (w.popups[i].inSuperview || w.popups[i].pending != [])
    ensures r.popups[i] == w.popups[i].(alive := r.popups[i].alive)
    ensures r.overlay == w.overlay && r.host == w.host
    ensures forall k :: 0 <= k < |w.popups| && k != i ==> r.popups[k] == w.popups[k]
    ensures Valid(w) ==> Valid(r)
  {
    var p := w.popups[i];
    if p.inSuperview || p.pending != [] then w
    else Put(w, i, p.(alive := false))
  }

  /** A popup that receives a notification posted with class `c` and acts
      on it: live (still subscribed) and a kind of `c`. */
  predicate Hears(p: Popup, c: ClassName) {
    p.alive && p.IsKind(c)
  }

  /** `notifyHideAll(notification:)` for popup `i`. */
  function NotifyHideAll(w: World, i: nat, c: ClassName): (r: World)
    requires i < |w.popups|
    ensures |r.popups| == |w.popups| && r.host == w.host
    ensures r.overlay.subviews == w.overlay.subviews
    ensures Hears(w.popups[i], c) ==>
              r.popups[i] == PopupView.Hide(w.popups[i], None, w.host)
              && r.overlay == Restored(w.overlay, w.popups[i])
    ensures !Hears(w.popups[i], c) ==> r == w
    ensures forall k :: 0 <= k < |w.popups| && k != i ==> r.popups[k] == w.popups[k]
    ensures Valid(w) ==> Valid(r)
  {
    if Hears(w.popups[i], c) then Hide(w, i, None) else w
  }

  /** Posting the hide-all notification with class `c` to the subscribers
      from index `k` on, in registration order. Every subscriber that is a
      kind of `c` hides exactly once and no other popup changes; the
      overlay ends restored by the last subscriber that hid, or unchanged
      when none did. */
  function Broadcast(w: World, c: ClassName, k: nat): (r: World)
    requires k <= |w.popups|
    ensures |r.popups| == |w.popups| && r.host == w.host
    ensures forall i :: 0 <= i < k ==> r.popups[i] == w.popups[i]
    ensures forall i :: k <= i < |w.popups| ==>
              r.popups[i] == (if Hears(w.popups[i], c) then PopupView.Hide(w.popups[i], None, w.host)
                              else w.popups[i])
    ensures r.overlay.subviews == w.overlay.subviews
    ensures (forall i :: k <= i < |w.popups| ==> !Hears(w.popups[i], c)) ==> r.overlay == w.overlay
    ensures forall i :: k <= i < |w.popups| && Hears(w.popups[i], c)
                        && (forall j :: i < j < |w.popups| ==> !Hears(w.popups[j], c)) ==>
              r.overlay == Restored(w.overlay, w.popups[i])
    ensures (exists i :: k <= i < |w.popups| && Hears(w.popups[i], c)) ==> r.overlay.maskHidden
    ensures Valid(w) ==> Valid(r)
    decreases |w.popups| - k
  {
    if k == |w.popups| then w
    else
      var w' := NotifyHideAll(w, k, c);
      assert forall i :: k < i < |w.popups| ==> w'.popups[i] == w.popups[i];
      assert forall i :: k < i < |w.popups| ==>
               Restored(w'.overlay, w'.popups[i]) == Restored(w.overlay, w.popups[i]);
      Broadcast(w', c, k + 1)
  }

  /** `hideAll()`: post the notification with `FWPopupView` itself, so
      that every live popup hides once. */
  function HideAll(w: World): (r: World)
    ensures |r.popups| == |w.popups|
    ensures Valid(w) ==> forall i :: 0 <= i < |w.popups| ==>
              r.popups[i] == (if w.popups[i].alive then PopupView.Hide(w.popups[i], None, w.host)
                              else w.popups[i])
    ensures Valid(w) ==> Valid(r)
    ensures Valid(w) && (exists i :: 0 <= i < |w.popups| && w.popups[i].alive) ==>
              r.overlay.maskHidden
    ensures r.host == w.host && r.overlay.subviews == w.overlay.subviews
    ensures Valid(w) ==> forall i :: 0 <= i < |w.popups| && w.popups[i].alive
                                     && (forall j :: i < j < |w.popups| ==> !w.popups[j].alive) ==>
              r.overlay == Restored(w.overlay, w.popups[i])
    ensures Valid(w) && (forall i :: 0 <= i < |w.popups| ==> !w.popups[i].alive) ==>
              r.overlay == w.overlay
  {
    var r := Broadcast(w, PopupViewClass, 0);
    assert Valid(w) ==> forall i :: 0 <= i < |w.popups| ==>
             (Hears(w.popups[i], PopupViewClass) <==> w.popups[i].alive);
    r
  }

  /** Posting the notification with a UIKit superclass of `FWPopupView`
      reaches every live popup, since each is a kind of that class too, and
      so does exactly what `hideAll()` does. */
  lemma PostingSuperclassIsHideAll(w: World, c: ClassName)
    requires Valid(w) && c in UIKitRoots
    ensures Broadcast(w, c, 0) == HideAll(w)
  {
    SameHearersSameBroadcast(w, c, PopupViewClass, 0);
  }

  /** Two notifications heard by the same subscribers have the same
      effect: the popups, the host and the overlay all agree, the overlay
      because both end as the last common hearer restored it. */
  lemma SameHearersSameBroadcast(w: World, c: ClassName, d: ClassName, k: nat)
    requires k <= |w.popups|
    requires forall i :: k <= i < |w.popups| ==> (Hears(w.popups[i], c) <==> Hears(w.popups[i], d))
    ensures Broadcast(w, c, k) == Broadcast(w, d, k)
  {
    var rc, rd := Broadcast(w, c, k), Broadcast(w, d, k);
    assert rc.popups == rd.popups by {
      forall i | 0 <= i < |w.popups| ensures rc.popups[i] == rd.popups[i] {
        if i >= k {
          assert Hears(w.popups[i], c) <==> Hears(w.popups[i], d);
        }
      }
    }
    OverlayDeterminedByHearers(w, c, d, k, rc.overlay, rd.overlay);
  }

  /** The overlay `Broadcast` promises after a post of class `c` to the
      subscribers from `k` on: the mask view kept, and the overlay either
      untouched when nobody heard or as the last hearer restored it. */
  ghost predicate OverlayOutcome(w: World, c: ClassName, k: nat, o: Overlay)
    requires k <= |w.popups|
  {
    && o.subviews == w.overlay.subviews
    && ((forall i :: k <= i < |w.popups| ==> !Hears(w.popups[i], c)) ==> o == w.overlay)
    && (forall i :: k <= i < |w.popups| && Hears(w.popups[i], c)
                    && (forall j :: i < j < |w.popups| ==> !Hears(w.popups[j], c)) ==>
          o == Restored(w.overlay, w.popups[i]))
  }

  /** That overlay is determined by which subscribers hear the post. */
  lemma OverlayDeterminedByHearers(w: World, c: ClassName, d: ClassName, k: nat, oc: Overlay, od: Overlay)
    requires k <= |w.popups|
    requires forall i :: k <= i < |w.popups| ==> (Hears(w.popups[i], c) <==> Hears(w.popups[i], d))
    ensures OverlayOutcome(w, c, k, oc) && OverlayOutcome(w, d, k, od) ==> oc == od
  {
    if OverlayOutcome(w, c, k, oc) && OverlayOutcome(w, d, k, od) {
      if exists i :: k <= i < |w.popups| && Hears(w.popups[i], c) {
        var last := LastHearer(w.popups, c, k);
        assert oc == Restored(w.overlay, w.popups[last]);
        assert od == Restored(w.overlay, w.popups[last]) by {
          assert Hears(w.popups[last], d);
          assert forall j :: last < j < |w.popups| ==> !Hears(w.popups[j], d);
        }
      } else {
        assert oc == w.overlay;
        assert od == w.overlay by {
          assert forall i :: k <= i < |w.popups| ==> !Hears(w.popups[i], d);
        }
      }
    }
  }

  /** The last subscriber from index `k` on that hears a post with class
      `c`. */
  ghost function LastHearer(ps: seq<Popup>, c: ClassName, k: nat): (i: nat)
    requires exists i :: k <= i < |ps| && Hears(ps[i], c)
    ensures k <= i < |ps| && Hears(ps[i], c)
    ensures forall j :: i < j < |ps| ==> !Hears(ps[j], c)
    decreases |ps|
  {
    var n := |ps| - 1;
    if Hears(ps[n], c) then n
    else
      var h :| k <= h < |ps| && Hears(ps[h], c);
      assert k <= h < n && Hears(ps[..n][h], c);
      LastHearer(ps[..n], c, k)
  }
}
