/** Sequences of operations on the popup world, and the properties that
    hold whatever happens between two calls: the invariant of `Lifecycle`,
    the mask state a hide restores, and single insertion into the mask
    view. */
module Traces {
  import opened Options
  import opened Geometry
  import opened Surface
  import opened PopupView
  import opened Lifecycle

  /** One thing a caller or the animation system can do. */
  datatype Op =
    | NewPopup(subclasses: seq<ClassName>, frame: Rect)
    | AssignType(i: nat, t: PopupType)
    | AssignProperty(i: nat, property: Option<Property>)
    | AssignKeyboard(i: nat, withKeyboard: bool)
    | AssignFrame(i: nat, frame: Rect)
    | ClearAttached(i: nat)
    | AssignMaskColor(c: Color)
    | AssignTouchWildToHide(b: bool)
    | CallShow(i: nat, block: Option<BlockId>)
    | CallHide(i: nat, block: Option<BlockId>)
    | Complete(i: nat, j: nat, finished: bool)
    | CallHideAll
    | Dealloc(i: nat)

  /** The popup an operation addresses exists and can receive it. */
  predicate Enabled(w: World, op: Op) {
    match op
    case AssignType(i, _) => Live(w, i)
    case AssignProperty(i, _) => Live(w, i)
    case AssignKeyboard(i, _) => Live(w, i)
    case AssignFrame(i, _) => Live(w, i)
    case ClearAttached(i) => Live(w, i)
    case CallShow(i, _) => Live(w, i)
    case CallHide(i, _) => Live(w, i)
    case Complete(i, j, _) => i < |w.popups| && j < |w.popups[i].pending|
    case Dealloc(i) => i < |w.popups|
    case _ => true
  }

  function Step(w: World, op: Op): Result<World, Fault>
    requires Enabled(w, op)
  {
    match op
    case NewPopup(sub, f) => Success(Create(w, sub, f))
    case AssignType(i, t) => Success(SetPopupType(w, i, t))
    case AssignProperty(i, prop) => Success(SetProperty(w, i, prop))
    case AssignKeyboard(i, b) => Success(SetWithKeyboard(w, i, b))
    case AssignFrame(i, f) => Success(SetFrame(w, i, f))
    case ClearAttached(i) => Success(ClearAttachedView(w, i))
    case AssignMaskColor(c) => Success(SetMaskColor(w, c))
    case AssignTouchWildToHide(b) => Success(SetTouchWildToHide(w, b))
    case CallShow(i, block) => Lifecycle.Show(w, i, block)
    case CallHide(i, block) => Success(Lifecycle.Hide(w, i, block))
    case Complete(i, j, fin) => Success(Lifecycle.Finish(w, i, j, fin))
    case CallHideAll => Success(HideAll(w))
    case Dealloc(i) => Success(Release(w, i))
  }

  /** Perform `ops` in order. An operation on a popup that cannot receive it
      is never issued, so it is passed over; a trap ends the run. */
  function Run(w: World, ops: seq<Op>): Result<World, Fault>
    decreases |ops|
  {
    if ops == [] then Success(w)
    else if !Enabled(w, ops[0]) then Run(w, ops[1..])
    else match Step(w, ops[0])
      case Failure(f) => Failure(f)
      case Success(w') => Run(w', ops[1..])
  }

  /** `r` keeps every popup of `w`, with the class and the mask settings it
      captured at creation. */
  ghost predicate Extends(w: World, r: World) {
    && |w.popups| <= |r.popups|
    && forall i :: 0 <= i < |w.popups| ==>
         && r.popups[i].originMaskColor == w.popups[i].originMaskColor
         && r.popups[i].originTouchWildToHide == w.popups[i].originTouchWildToHide
         && r.popups[i].ancestry == w.popups[i].ancestry
  }

  /** One operation keeps every existing popup's captured settings and
      class, and keeps the world invariant. */
  lemma StepExtends(w: World, op: Op)
    requires Enabled(w, op) && Step(w, op).Success?
    ensures Extends(w, Step(w, op).value)
    ensures Valid(w) ==> Valid(Step(w, op).value)
  {
  }

  /** Whatever a run does, every popup that existed before it still exists
      with the mask colour, tap-to-hide flag and class it had; and a run
      from a valid world ends in a valid world. */
  lemma {:induction false} RunExtends(w: World, ops: seq<Op>)
    requires Run(w, ops).Success?
    ensures Extends(w, Run(w, ops).value)
    ensures Valid(w) ==> Valid(Run(w, ops).value)
    decreases |ops|
  {
    if ops == [] {
    } else if !Enabled(w, ops[0]) {
      RunExtends(w, ops[1..]);
    } else {
      StepExtends(w, ops[0]);
      var w' := Step(w, ops[0]).value;
      RunExtends(w', ops[1..]);
    }
  }

  /** Mask restore: create a popup, do anything at all (show it, change the
      mask colour or tap-to-hide flag, show and hide other popups), then
      hide it. The mask colour and tap-to-hide flag are at once those of
      the overlay when the popup was created, while the view is still in
      the mask view until its hide animation completes. */
  lemma HideRestoresMaskOfCreation(w: World, subclasses: seq<ClassName>, frame: Rect,
                                   ops: seq<Op>, block: Option<BlockId>)
    requires Run(Create(w, subclasses, frame), ops).Success?
    requires Live(Run(Create(w, subclasses, frame), ops).value, |w.popups|)
    ensures var before := Run(Create(w, subclasses, frame), ops).value;
            var r := Lifecycle.Hide(before, |w.popups|, block);
            && r.overlay.maskColor == w.overlay.maskColor
            && r.overlay.touchWildToHide == w.overlay.touchWildToHide
            && r.overlay.subviews == before.overlay.subviews
  {
    var w1 := Create(w, subclasses, frame);
    RunExtends(w1, ops);
  }

  /** Attach once: in every state reached from a valid world, each popup
      is in the mask view at most once, and exactly when it believes it
      has a superview. */
  lemma {:induction false} ReachableAttachedOnce(w: World, ops: seq<Op>, i: nat)
    requires Valid(w) && Run(w, ops).Success?
    requires i < |Run(w, ops).value.popups|
    ensures var r := Run(w, ops).value;
            multiset(r.overlay.subviews)[i] == (if r.popups[i].inSuperview then 1 else 0)
  {
    RunExtends(w, ops);
    var r := Run(w, ops).value;
    NoDupOnce(r.overlay.subviews, i);
  }

  /** Calling `show()` twice with no hide in between inserts the view into
      the mask view exactly once. */
  lemma ShowTwiceInsertsOnce(w: World, i: nat, first: Option<BlockId>, second: Option<BlockId>)
    requires Valid(w) && Live(w, i) && w.popups[i].animation.Some?
    ensures var w1 := Lifecycle.Show(w, i, first).value;
            var w2 := Lifecycle.Show(w1, i, second).value;
            && w2.overlay.subviews == w1.overlay.subviews
            && multiset(w2.overlay.subviews)[i] == 1
  {
    var w1 := Lifecycle.Show(w, i, first).value;
    var w2 := Lifecycle.Show(w1, i, second).value;
    NoDupOnce(w2.overlay.subviews, i);
  }
}
