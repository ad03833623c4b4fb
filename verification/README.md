# FWPopupView core in Dafny

This project models the core of `FWPopupView`, a Swift/UIKit popup
presentation layer. It covers two parts.

- **Geometry.** Alerts, bottom sheets and custom popups each have a show
  animation with a start state and an end state. Custom popups place
  themselves by one of nine alignments plus edge insets.
- **Lifecycle.** A popup is shown on a shared overlay: a dimming mask,
  the mask colour, and a tap-outside-to-hide flag. `show` inserts the view
  into the mask view and reveals the mask. `hide` hides the mask and at
  once restores the mask settings the popup captured when it was created.
  The view leaves the mask view only when its hide animation completes.
  `hideAll` broadcasts to every live popup.

Everything is pure functions over immutable datatypes:

- `options.dfy`: `Option` and `Result`.
- `geometry.dfy`: frames, the alignment table, and the show and hide motions.
- `surface.dfy`: the shared overlay and its subview list.
- `popup.dfy`: one popup and its own show, hide and completion steps.
- `lifecycle.dfy`: the world of all popups plus the overlay, its operations, and the invariant they keep.
- `traces.dfy`: arbitrary sequences of operations, with the mask-restore and attach-once properties proved over them.
- `scenarios.dfy`: concrete layouts, and the places where the geometry is not symmetric.

Modelling choices:

- Coordinates are `real`.
- A view's `look` is its frame, the uniform scale of its transform, its
  alpha and its anchor point.
- After `show` or `hide` the look holds the values the animation block
  assigned, because UIKit sets model values at once.
- The completion of an animation is a separate `Finish` step. It may pick
  any in-flight animation, in any order, and says whether the animation
  finished.
- Popups are named by index and never removed. Deallocation marks one dead,
  which unsubscribes it from `hideAll`.
- `show()` on a popup whose `popupType` was never assigned force-unwraps a
  nil animation. The model returns `Failure(ShowAnimationUnset)` for that
  trap.

## Asymmetries in the custom geometry

The custom layout in `FWPopupView.swift` is not symmetric between its
nine alignments. The model keeps each asymmetry as the code has it:

- **Centre.** Line 380 sets the final y to `top - bottom`. It does not
  read the container's height. See `Geometry.Place` and
  `Scenarios.CenterIgnoresContainerHeight`.
- **Top and bottom.** Lines 383 and 393 shift the view's current x by
  `left - right`. They do not centre it horizontally.
- **Left and right.** Lines 389 and 399 shift the view's current y by
  `top - bottom`.
- **Corners.** Lines 402-416 compute an origin from the insets. For a
  100x50 bottom-right popup in a 400x800 container with bottom inset 20
  and right inset 10, that origin is (400 - 100 - 10, 800 - 50 - 20) =
  (290, 730). Line 428 then overwrites the frame with the pre-show frame,
  so the popup ends at its own origin. See `Scenarios.BottomRightInsetPlacement`,
  `Scenarios.CornerIgnoresInsets` and `Scenarios.BottomRightStaysPut`.
- **Custom hide.** Lines 486-494 change no geometry. The hide does not
  reverse the show's frame or scale change, and the view keeps its shown
  look until the completion removes it. See `PopupView.HideLook` and
  `PopupView.CustomHideKeepsShownLook`.

## Model

| member | source | states |
|---|---|---|
| Geometry.Rect.CenteredAt | FWPopupView/FWPopupView/FWPopupView/FWPopupView.swift:250 | assigning `center` moves the frame so that its middle is the given point, with its size kept |
| Geometry.RawValue | FWPopupView/FWPopupView/FWPopupView/FWPopupView.swift:43-53 | an alignment's raw value is its position in the declaration: `center` is 0, and exactly top, left, bottom and right have raw values 1 to 4 |
| Geometry.RawValueInjective | FWPopupView/FWPopupView/FWPopupView/FWPopupView.swift:43-53 | distinct alignments have distinct raw values, and every position 0..8 of the declaration is the raw value of the case declared there |
| Geometry.IsEdge | FWPopupView/FWPopupView/FWPopupView/FWPopupView.swift:424 | the raw-value range test `top...right` selects exactly top, left, bottom and right |
| Geometry.AlertShow | FWPopupView/FWPopupView/FWPopupView/FWPopupView.swift:248-262 | on first attach the alert is centred in the container, raised by 216/2 with a keyboard; every show starts at scale 1.2 and alpha 0 and ends at identity and alpha 1 in the same frame |
| Geometry.FadeOut | FWPopupView/FWPopupView/FWPopupView/FWPopupView.swift:283-286 | alert hide makes the view transparent and leaves its frame, scale and anchor |
| Geometry.AlertFadeAfterShow | FWPopupView/FWPopupView/FWPopupView/FWPopupView.swift:241-300 | an alert hidden right after its show ends where the show started, transparent, but at identity scale rather than 1.2 |
| Geometry.SheetShow | FWPopupView/FWPopupView/FWPopupView/FWPopupView.swift:309-316 | on first attach the sheet's top edge is at the screen bottom; it ends with its bottom edge on the screen bottom; only the vertical position changes |
| Geometry.SlideOff | FWPopupView/FWPopupView/FWPopupView/FWPopupView.swift:339-341 | sheet hide moves the top edge to the screen bottom and changes nothing else |
| Geometry.Place | FWPopupView/FWPopupView/FWPopupView/FWPopupView.swift:376-418 | the first-attach placement per alignment: centre's middle is on the container's centre line plus left-right, with y = top-bottom; edges collapse to zero thickness at their edge and keep the other coordinate shifted by the insets; a corner's origin sits the insets away from its two edges (left/top inset, or container size minus frame size minus right/bottom inset) |
| Geometry.CustomShow | FWPopupView/FWPopupView/FWPopupView/FWPopupView.swift:371-463 | the size after a custom show is the pre-show size; edges end pinned to their edge and grow from it; centre and corners scale from 0.01 to identity in place; corners keep the pre-show frame with anchor y 0 (top) or 1 (bottom); an attached view animates from its current look |
| PopupView.SetType | FWPopupView/FWPopupView/FWPopupView/FWPopupView.swift:83-101 | assigning `popupType` installs that type's animations, so the installed animations match the type, and nothing else changes |
| PopupView.KeepOrReplace | FWPopupView/FWPopupView/FWPopupView/FWPopupView.swift:166-168 | the stored completion block is replaced only by a non-nil one |
| PopupView.EffectiveProperty | FWPopupView/FWPopupView/FWPopupView/FWPopupView.swift:367-369 | a popup without `vProperty` is laid out with the default: centre, zero insets |
| PopupView.RunShow | FWPopupView/FWPopupView/FWPopupView/FWPopupView.swift:176-177 | running a show animation inserts the view, sets its look to the motion's end, queues one show completion, and stores the default property for a custom popup |
| PopupView.Show | FWPopupView/FWPopupView/FWPopupView/FWPopupView.swift:164-182 | popup-side show traps exactly when no animation was installed; otherwise it keeps or replaces the block, resolves the attached view and queues one show completion; a custom show stores the default property when none was set, and any other type leaves the property as it was |
| PopupView.HideLook | FWPopupView/FWPopupView/FWPopupView/FWPopupView.swift:276-503 | hide end states per type: alert fades out in place with its scale and anchor kept, sheet slides its top edge to the screen bottom, custom keeps its look; none resizes |
| PopupView.Hide | FWPopupView/FWPopupView/FWPopupView/FWPopupView.swift:193-211 | popup-side hide keeps or replaces the block, keeps the view in its superview, and queues a hide completion only when a hide animation is installed |
| PopupView.CustomHideKeepsShownLook | FWPopupView/FWPopupView/FWPopupView/FWPopupView.swift:359-503 | a custom hide right after a custom show leaves the view exactly as the show left it, so a centre or corner popup stays at identity scale and does not shrink back to 0.01 |
| PopupView.Finish | FWPopupView/FWPopupView/FWPopupView/FWPopupView.swift:287-296 | a completion removes exactly one in-flight animation; the view leaves its superview only for a finished hide; the current block is reported with `true` for a show and `false` for a hide |
| Surface.RemoveSubview | FWPopupView/FWPopupView/FWPopupView/FWPopupView.swift:290 | `removeFromSuperview` takes the view out of the list, keeps every other entry, and keeps the list duplicate-free; in a duplicate-free list holding the view, the result is the list with exactly that one entry cut out, so the order of the others is kept |
| Lifecycle.Create | FWPopupView/FWPopupView/FWPopupView/FWPopupView.swift:124-133 | a new popup is live, a kind of exactly the caller's subclass chain, `FWPopupView` and its superclasses `UIView`, `UIResponder` and `NSObject` and of no other class, starts with the given frame at identity transform, full opacity and the default anchor, of type alert with no animation installed, not inserted, and holds the overlay's current mask colour and tap-to-hide flag; it is a kind of every class of the caller's subclass chain, has no `vProperty`, `withKeyboard` false, an attached view, and has reported nothing |
| Lifecycle.SetPopupType | FWPopupView/FWPopupView/FWPopupView/FWPopupView.swift:83-101 | assigning the type installs its animations and changes nothing else: the rest of the popup, every other popup and the overlay are as they were; the world invariant is kept |
| Lifecycle.SetProperty | FWPopupView/FWPopupView/FWPopupView/FWPopupView.swift:72 | assigning `vProperty` sets it and changes nothing else: the rest of the popup, every other popup, the overlay and the host are as they were; the world invariant is kept |
| Lifecycle.SetWithKeyboard | FWPopupView/FWPopupView/FWPopupView/FWPopupView.swift:110 | assigning `withKeyboard` sets it and changes nothing else, in the same sense; the world invariant is kept |
| Lifecycle.ClearAttachedView | FWPopupView/FWPopupView/FWPopupView/FWPopupView.swift:69 | assigning nil to `attachedView` leaves the popup without one and changes nothing else, in the same sense; the world invariant is kept |
| Lifecycle.Visible | FWPopupView/FWPopupView/FWPopupView/FWPopupView.swift:73-80 | without an attached view a popup is not visible; with one it is visible exactly when the shared mask is not hidden |
| Lifecycle.Show | FWPopupView/FWPopupView/FWPopupView/FWPopupView.swift:164-182 | show traps exactly when the type was never assigned; otherwise the popup is visible, inserted into the mask view only if it had no superview, mask colour, tap flag and host untouched, one show completion queued, other popups unchanged, and the popup itself exactly as the popup-level `PopupView.Show` leaves it |
| Lifecycle.Restored | FWPopupView/FWPopupView/FWPopupView/FWPopupView.swift:213-215 | after a hide the mask is hidden and its colour and tap flag are the popup's captured ones |
| Lifecycle.Hide | FWPopupView/FWPopupView/FWPopupView/FWPopupView.swift:193-216 | hide makes the popup not visible and restores the captured mask colour and tap flag at once, before any completion; the mask view is unchanged; a hide completion is queued only if animations are installed |
| Lifecycle.Finish | FWPopupView/FWPopupView/FWPopupView/FWPopupView.swift:287-296 | a finished hide takes the popup out of the mask view, cutting out just its entry and keeping the other subviews in order; any other completion leaves the mask view as it was; the mask state and the host are untouched |
| Lifecycle.Release | FWPopupView/FWPopupView/FWPopupView/FWPopupView.swift:139-141 | a popup dies, and so unsubscribes, only when nothing retains it: it is not in the mask view and has no animation in flight; nothing but `alive` changes, for that popup or anywhere else |
| Lifecycle.NotifyHideAll | FWPopupView/FWPopupView/FWPopupView/FWPopupView.swift:223-228 | a popup that is live and a kind of the posted class hides with no block, restoring the overlay it captured; any other popup leaves the world unchanged; no other popup changes and the invariant is kept |
| Lifecycle.Broadcast | FWPopupView/FWPopupView/FWPopupView/FWPopupView.swift:223-228 | posting a class hides every live subscriber that is a kind of it exactly once and changes no other popup; the overlay ends restored by the last such subscriber, or is unchanged if there is none |
| Lifecycle.HideAll | FWPopupView/FWPopupView/FWPopupView/FWPopupView.swift:219-221 | `hideAll` hides every live popup once and no dead one, and leaves the mask hidden when any popup is live; the overlay ends as the last live popup restored it, or unchanged when none is live, and the host and mask view are kept |
| Lifecycle.PostingSuperclassIsHideAll | FWPopupView/FWPopupView/FWPopupView/FWPopupView.swift:66 | since `FWPopupView` is a `UIView`, posting the hide-all notification with `UIView`, `UIResponder` or `NSObject` has exactly the effect of `hideAll` |
| Lifecycle.SameHearersSameBroadcast | FWPopupView/FWPopupView/FWPopupView/FWPopupView.swift:223-228 | two posted classes that the same subscribers act on have the same effect on the world |
| Lifecycle.OverlayDeterminedByHearers | FWPopupView/FWPopupView/FWPopupView/FWPopupView.swift:223-228 | the overlay a post leaves is fixed by which subscribers hear it: untouched when nobody hears, otherwise as the last hearer restored it |
| Traces.StepExtends | FWPopupView/FWPopupView/FWPopupView/FWPopupView.swift:156-228 | every operation keeps the world invariant and never changes a popup's captured mask settings or class |
| Traces.RunExtends | FWPopupView/FWPopupView/FWPopupView/FWPopupView.swift:129-130 | over any sequence of operations, the mask settings captured at creation never change, and the invariant holds |
| Traces.HideRestoresMaskOfCreation | FWPopupView/FWPopupView/FWPopupView/FWPopupView.swift:213-215 | after any operations, hiding a popup restores the mask colour and tap flag the overlay had when the popup was created, while the view is still in the mask view |
| Traces.ReachableAttachedOnce | FWPopupView/FWPopupView/FWPopupView/FWPopupView.swift:373-374 | in every reachable state each popup is in the mask view exactly once when it has a superview and never otherwise |
| Traces.ShowTwiceInsertsOnce | FWPopupView/FWPopupView/FWPopupView/FWPopupView.swift:248-249 | two shows in a row leave the mask view as after the first, holding the view once |
| Scenarios.AlertInPortraitContainer | FWPopupView/FWPopupView/FWPopupView/FWPopupView.swift:248-262 | a 200x150 alert in a 400x800 container ends at (100, 325), opaque |
| Scenarios.AlertRaisedForKeyboard | FWPopupView/FWPopupView/FWPopupView/FWPopupView.swift:251-253 | with a keyboard that alert ends at y = 217 |
| Scenarios.SheetOnTallScreen | FWPopupView/FWPopupView/FWPopupView/FWPopupView.swift:309-316 | a 300-high sheet on an 800-high screen starts at y = 800 and ends at y = 500 |
| Scenarios.SheetHideUndoesShow | FWPopupView/FWPopupView/FWPopupView/FWPopupView.swift:339-341 | hiding a freshly shown sheet returns it to the show's start state |
| Scenarios.CustomDefaultIsCenteredAtTop | FWPopupView/FWPopupView/FWPopupView/FWPopupView.swift:367-380 | a custom popup with no property ends horizontally centred at y = 0, scaling from 0.01 to identity |
| Scenarios.CenterIgnoresContainerHeight | FWPopupView/FWPopupView/FWPopupView/FWPopupView.swift:380 | the custom centre's end state does not depend on the container's height |
| Scenarios.CornerIgnoresInsets | FWPopupView/FWPopupView/FWPopupView/FWPopupView.swift:428 | a corner popup's end state does not depend on the insets |
| Scenarios.BottomRightInsetPlacement | FWPopupView/FWPopupView/FWPopupView/FWPopupView.swift:402-416 | the inset origin of a 100x50 bottom-right popup in a 400x800 container with insets 20 (bottom) and 10 (right) is (290, 730) |
| Scenarios.BottomRightStaysPut | FWPopupView/FWPopupView/FWPopupView/FWPopupView.swift:414-431 | a bottom-right popup at the origin ends at the origin, not at (290, 730) |
| Scenarios.VisibilityIsShared | FWPopupView/FWPopupView/FWPopupView/FWPopupView.swift:74-81 | `visible` reads the shared mask: any two popups with an attached view agree |
| Scenarios.HideOneHidesAllVisibility | FWPopupView/FWPopupView/FWPopupView/FWPopupView.swift:202 | after any popup hides, no popup reports itself visible |
| Scenarios.AnimationsNeedTypeAssignment | FWPopupView/FWPopupView/FWPopupView/FWPopupView.swift:176-177 | a fresh popup's show traps; its hide still hides and restores the mask with no animation queued; after the type is assigned show succeeds |
| Scenarios.TwoShowsKeepMaskVisible | FWPopupView/FWPopupView/FWPopupView/FWPopupView.swift:174 | the mask is visible after a first show and stays visible after a second popup's show |

## Left out

- **Animation timing.** Durations, curves, `beginFromCurrentState`
  interpolation, the halved sheet duration and the `animationDuration`
  observer (lines 104-108) are left out. Only end states are modelled.
- **Animation races.** Cancellation of one in-flight animation by another
  is not modelled. `Finish` may complete any in-flight animation, and its
  `finished` flag is a free parameter, so every completion order is
  covered.
- **Overlay collaborators.** `FWPopupWindow`, `attachView()`, `fwMaskView`,
  `showFwBackground` and `hideFwBackground` are not part of this model.
  They are reduced to the overlay fields. Showing and hiding the
  background only sets the mask's hidden flag. Tap-outside dismissal
  through the mask is not modelled.
- **Host views.** Attaching a popup to a caller-supplied view instead of
  the shared overlay is not modelled. Only assigning nil to `attachedView`
  is, through `Lifecycle.ClearAttachedView`.
- **`isPopupViewHiden`.** It reads the window's `isHidden`, which nothing
  in this file changes.
- **Keyboard hooks.** `showKeyboard` and `hideKeyboard` have empty bodies,
  so calling them has no effect.
- **`getImageWithColor`.** It is graphics-context code.
- **Styling.** The window's background colour set at init is left out, and
  so is every `FWPopupViewProperty` field except the alignment and the
  insets. That includes the string `touchWildToHide` and `maskViewColor`,
  which this file never reads.
- **`init(coder:)`.** It always traps.
- **Weak self.** The `[weak self]` guard in the animation blocks is left
  out. The blocks run synchronously inside `show` and `hide`, while the
  popup is alive.
- **Frames under a transform.** A frame is the value the code assigns. How
  UIKit reports `frame` under a non-identity transform or after an
  anchor-point change is not modelled. Floating-point rounding is not
  modelled either.
- **Completion blocks.** A block is an identity. Calling it appends a
  report and has no other effect.
