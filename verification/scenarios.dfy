/** Concrete layouts and short call sequences, and the asymmetries of the
    custom geometry: the custom centre ignores the container height, the
    corners ignore the insets. */
module Scenarios {
  import opened Options
  import opened Geometry
  import opened Surface
  import opened PopupView
  import opened Lifecycle

  /** An alert of 200x150 in a 400x800 container, without keyboard, ends
      centred at origin (100, 325), opaque and unscaled. */
  lemma AlertInPortraitContainer(look: Look)
    requires look.frame.w == 200.0 && look.frame.h == 150.0
    ensures var m := AlertShow(look, Rect(0.0, 0.0, 400.0, 800.0), false, false);
            m.end.frame == Rect(100.0, 325.0, 200.0, 150.0)
            && m.start.alpha == 0.0 && m.end.alpha == 1.0
  {
  }

  /** With a keyboard the same alert ends 108 points higher. */
  lemma AlertRaisedForKeyboard(look: Look)
    requires look.frame.w == 200.0 && look.frame.h == 150.0
    ensures AlertShow(look, Rect(0.0, 0.0, 400.0, 800.0), false, true).end.frame.y == 217.0
  {
  }

  /** A sheet 300 high on an 800-high screen starts at y = 800 and ends at
      y = 500. */
  lemma SheetOnTallScreen(look: Look)
    requires look.frame.h == 300.0
    ensures var m := SheetShow(look, 800.0, false);
            m.start.frame.y == 800.0 && m.end.frame.y == 500.0
  {
  }

  /** Hiding a sheet that was shown on first attach puts it back where the
      show started. */
  lemma SheetHideUndoesShow(look: Look, screenHeight: real)
    ensures var m := SheetShow(look, screenHeight, false);
            SlideOff(m.end, screenHeight) == m.start
  {
  }

  /** A custom popup without a property is laid out centred with zero
      insets: its middle on the container's vertical centre line, its top
      at y = 0, scaling up from 0.01. */
  lemma CustomDefaultIsCenteredAtTop(p: Popup, host: Host)
    requires p.property.None? && !p.inSuperview
    ensures var m := ShowMotion(Custom, p, host);
            m.end.frame.MidX() == host.container.MidX() && m.end.frame.y == 0.0
            && m.start.scale == PopStartScale && m.end.scale == Identity
  {
  }

  /** The custom centre's final y does not depend on the container's
      height: it is `top - bottom`, not centred vertically. */
  lemma CenterIgnoresContainerHeight(look: Look, insets: Insets, c1: Rect, c2: Rect)
    requires c1.x == c2.x && c1.w == c2.w
    ensures var p := Property(Center, insets);
            CustomShow(look, p, c1, false).end == CustomShow(look, p, c2, false).end
  {
    assert c1.MidX() == c2.MidX();
  }

  /** A corner popup's final frame is its pre-show frame, whatever the
      insets. */
  lemma CornerIgnoresInsets(look: Look, a: Alignment, i1: Insets, i2: Insets, container: Rect)
    requires IsCorner(a)
    ensures CustomShow(look, Property(a, i1), container, false).end
            == CustomShow(look, Property(a, i2), container, false).end
  {
  }

  /** The inset placement of a 100x50 bottom-right popup in a 400x800
      container, with bottom inset 20 and right inset 10, has its origin at
      (400 - 100 - 10, 800 - 50 - 20). */
  lemma BottomRightInsetPlacement()
    ensures var r := Place(Rect(0.0, 0.0, 100.0, 50.0), Property(BottomRight, Insets(0.0, 0.0, 20.0, 10.0)),
                           Rect(0.0, 0.0, 400.0, 800.0));
            r.x == 290.0 && r.y == 730.0
  {
  }

  /** So a 100x50 bottom-right popup in a 400x800 container with insets
      bottom 20 and right 10 ends where it was, not at (290, 730). */
  lemma BottomRightStaysPut(look: Look)
    requires look.frame == Rect(0.0, 0.0, 100.0, 50.0)
    ensures var p := Property(BottomRight, Insets(0.0, 0.0, 20.0, 10.0));
            var m := CustomShow(look, p, Rect(0.0, 0.0, 400.0, 800.0), false);
            m.end.frame.x == 0.0 && m.end.frame.y == 0.0
            && !(m.end.frame.x == 290.0 && m.end.frame.y == 730.0)
  {
  }

  /** `visible` is a property of the shared mask: any two popups with an
      attached view agree on it. */
  lemma VisibilityIsShared(w: World, i: nat, j: nat)
    requires i < |w.popups| && j < |w.popups|
    requires w.popups[i].hasAttachedView && w.popups[j].hasAttachedView
    ensures Visible(w, i) == Visible(w, j)
  {
  }

  /** Hiding one popup makes every popup report itself not visible, even
      one whose own view is still shown. This holds with `hideFwBackground`
      reduced to setting the mask's hidden flag. */
  lemma HideOneHidesAllVisibility(w: World, i: nat, j: nat, block: Option<BlockId>)
    requires Live(w, i) && j < |w.popups|
    ensures !Visible(Lifecycle.Hide(w, i, block), j)
  {
  }

  /** A popup whose type was never assigned has no animations: `show()`
      traps, while `hide()` still hides the mask, restores it and starts no
      animation. Once the type is assigned, `show()` succeeds. */
  lemma AnimationsNeedTypeAssignment(w: World, subclasses: seq<ClassName>, frame: Rect,
                                     t: PopupType, block: Option<BlockId>)
    ensures var w1 := Create(w, subclasses, frame);
            var i := |w.popups|;
            var h := Lifecycle.Hide(w1, i, block);
            && Lifecycle.Show(w1, i, block).Failure?
            && h.overlay.maskHidden && h.overlay.maskColor == w.overlay.maskColor
            && h.popups[i].pending == []
            && Lifecycle.Show(SetPopupType(w1, i, t), i, block).Success?
  {
  }

  /** Two popups shown one after the other: the mask is visible after the
      first show and stays visible after the second. This holds with
      `showFwBackground` reduced to clearing the mask's hidden flag. */
  lemma TwoShowsKeepMaskVisible(w: World, i: nat, j: nat, b1: Option<BlockId>, b2: Option<BlockId>)
    requires Live(w, i) && Live(w, j) && i != j
    requires w.popups[i].animation.Some? && w.popups[j].animation.Some?
    ensures var w1 := Lifecycle.Show(w, i, b1).value;
            var w2 := Lifecycle.Show(w1, j, b2).value;
            !w1.overlay.maskHidden && !w2.overlay.maskHidden
  {
  }
}
