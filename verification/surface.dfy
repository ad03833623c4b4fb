/** The shared overlay popups are shown on (`FWPopupWindow` and its
    `fwMaskView`): whether the dimming mask is hidden, its colour, whether a
    tap outside the popup dismisses it, and the mask view's subviews. */
module Surface {

  /** A colour is opaque configuration data: only its identity matters. */
  type Color = nat

  /** The overlay. `subviews` lists the popups inserted into the mask view,
      by popup index, in insertion order. */
  datatype Overlay = Overlay(
    maskHidden: bool,
    maskColor: Color,
    touchWildToHide: bool,
    subviews: seq<nat>)

  /** `showFwBackground()`: reveal the mask. */
  function ShowBackground(o: Overlay): Overlay {
    o.(maskHidden := false)
  }

  /** `hideFwBackground()`: hide the mask; no subview is removed. */
  function HideBackground(o: Overlay): Overlay {
    o.(maskHidden := true)
  }

  /** No view appears twice in a subview list. */
  predicate NoDup(s: seq<nat>) {
    forall a, b :: 0 <= a < b < |s| ==> s[a] != s[b]
  }

  /** `removeFromSuperview`: drop the view from the list; a view that is not
      there leaves the list as it was. */
  function RemoveSubview(s: seq<nat>, v: nat): (r: seq<nat>)
    ensures v !in r
    ensures forall u :: u in r <==> u in s && u != v
    ensures v !in s ==> r == s
    ensures NoDup(s) ==> NoDup(r)
    ensures NoDup(s) && v in s ==>
              exists k :: 0 <= k < |s| && s[k] == v && r == s[..k] + s[k + 1..]
    decreases |s|
  {
    if s == [] then []
    else
      assert s == [s[0]] + s[1..];
      NoDupCons(s[0], s[1..]);
      var rest := RemoveSubview(s[1..], v);
      if s[0] == v then
        assert NoDup(s) ==> s[..0] + s[1..] == rest;
        rest
      else
        NoDupCons(s[0], rest);
        KeepHeadOrder(s, v, rest);
        [s[0]] + rest
  }

  /** Removing `v` from the tail of a list whose head is not `v` leaves
      the list with the one occurrence of `v` cut out. */
  lemma KeepHeadOrder(s: seq<nat>, v: nat, rest: seq<nat>)
    requires |s| > 0 && s[0] != v
    requires NoDup(s) ==> NoDup(s[1..])
    requires NoDup(s[1..]) && v in s[1..] ==>
               exists k :: 0 <= k < |s[1..]| && s[1..][k] == v && rest == s[1..][..k] + s[1..][k + 1..]
    ensures NoDup(s) && v in s ==>
              exists k :: 0 <= k < |s| && s[k] == v && [s[0]] + rest == s[..k] + s[k + 1..]
  {
    if NoDup(s) && v in s {
      assert v in s[1..];
      var k :| 0 <= k < |s[1..]| && s[1..][k] == v && rest == s[1..][..k] + s[1..][k + 1..];
      assert s[k + 1] == v;
      assert [s[0]] + rest == s[..k + 1] + s[k + 2..];
    }
  }

  /** A list headed by `x` has no duplicates iff its tail has none and
      does not contain `x`. */
  lemma NoDupCons(x: nat, t: seq<nat>)
    ensures NoDup([x] + t) <==> x !in t && NoDup(t)
  {
    var s := [x] + t;
    if NoDup(s) {
      forall a, b | 0 <= a < b < |t| ensures t[a] != t[b] {
        assert t[a] == s[a + 1] && t[b] == s[b + 1];
      }
      forall k | 0 <= k < |t| ensures t[k] != x {
        assert t[k] == s[k + 1] && s[0] == x;
      }
    }
    if x !in t && NoDup(t) {
      forall a, b | 0 <= a < b < |s| ensures s[a] != s[b] {
        if a > 0 {
          assert s[a] == t[a - 1] && s[b] == t[b - 1];
        } else {
          assert s[b] == t[b - 1];
        }
      }
    }
  }

  /** A view in a list without duplicates occurs in it exactly once. */
  lemma {:induction false} NoDupOnce(s: seq<nat>, v: nat)
    requires NoDup(s)
    ensures multiset(s)[v] == (if v in s then 1 else 0)
    decreases |s|
  {
    if s == [] {
    } else {
      assert s == [s[0]] + s[1..];
      NoDupCons(s[0], s[1..]);
      NoDupOnce(s[1..], v);
    }
  }
}
