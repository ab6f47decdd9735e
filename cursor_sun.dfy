/**
 * The sun-shaped cursor: whether it is enabled (from the reduced-motion
 * preference and the stored `sunCursorOff` flag, flipped by the `c` key and
 * set by the settings' `sunCursorSet` event), the style element that hides
 * the system cursor while it is on, its opacity, and the bounded trail of
 * recent positions. Easing, drawing and the device pixel ratio are not
 * modelled; the eased position is given to each frame.
 */
module CursorSun {
  import opened Wrappers
  import opened Browser

  const OffKey := "sunCursorOff"

  /** The longest trail kept. */
  const MaxTrail := 80

  datatype Point = Point(x: real, y: real)

  /** The detail of a `sunCursorSet` event: a boolean, or any other value. */
  datatype Detail = BoolDetail(on: bool) | OtherDetail

  /** Enabled unless reduced motion is preferred or the cursor was turned off. */
  function InitiallyEnabled(prefersReduce: bool, storedOff: Option<string>): (on: bool)
    ensures on <==> !prefersReduce && storedOff != Some("1")
  {
    !(prefersReduce || storedOff == Some("1"))
  }

  /** The stored flag for a state: "0" while on, "1" while off. */
  function OffFlag(on: bool): (s: string)
    ensures InitiallyEnabled(false, Some(s)) == on
  {
    if on then "0" else "1"
  }

  /** The `c` key in either case. */
  predicate IsToggleKey(key: Option<string>)
  {
    key == Some("c") || key == Some("C")
  }

  /** One frame's trail: the new point appended, the oldest dropped once there are more than 80. */
  function Push(trail: seq<Point>, p: Point): (r: seq<Point>)
    ensures |trail| <= MaxTrail ==> |r| <= MaxTrail
    ensures |r| > 0 && r[|r| - 1] == p
  {
    var t := trail + [p];
    if |t| > MaxTrail then t[1..] else t
  }

  /** The trail after a run of frames that started with an empty trail. */
  function Trail(history: seq<Point>): seq<Point>
  {
    if history == [] then [] else Push(Trail(history[..|history| - 1]), history[|history| - 1])
  }

  /** The trail is exactly the last (at most) 80 eased positions, oldest first. */
  lemma {:induction false} TrailIsRecent(history: seq<Point>)
    ensures var n := if |history| < MaxTrail then |history| else MaxTrail;
      Trail(history) == history[|history| - n..]
  {
    if history != [] {
      var prefix := history[..|history| - 1];
      var last := history[|history| - 1];
      TrailIsRecent(prefix);
      var m := if |prefix| < MaxTrail then |prefix| else MaxTrail;
      var t := prefix[|prefix| - m..] + [last];
      assert Trail(history) == Push(prefix[|prefix| - m..], last);
      assert t == history[|prefix| - m..];
      if |t| > MaxTrail {
        assert t[1..] == history[|prefix| - m + 1..];
      }
    }
  }

  /** The sun's opacity: shown while the mouse is over the page. */
  function Opacity(visible: bool): (o: real)
    ensures o == 1.0 <==> visible
    ensures o == 0.0 <==> !visible
  {
    if visible then 1.0 else 0.0
  }

  class Cursor {
    var enabled: bool
    /** The injected force-hide style element is held. */
    var styleHeld: bool
    /** How many force-hide style elements the document head holds. */
    var forceStyles: nat
    var visible: bool
    var scale: real
    var opacity: real
    var trail: seq<Point>
    const storage: LocalStorage

    predicate Valid()
      reads this
    {
      forceStyles == (if styleHeld then 1 else 0) && styleHeld == enabled && |trail| <= MaxTrail
    }

    /** The mount effect: read the preference and the stored flag, then apply. */
    constructor (prefersReduce: bool, storage: LocalStorage)
      ensures Valid()
      ensures enabled == InitiallyEnabled(prefersReduce, storage.GetItem(OffKey))
      ensures styleHeld == enabled && visible && trail == [] && this.storage == storage
    {
      this.storage := storage;
      enabled := InitiallyEnabled(prefersReduce, storage.GetItem(OffKey));
      styleHeld, forceStyles := false, 0;
      visible, scale, opacity, trail := true, 1.0, 1.0, [];
      new;
      ApplyEnabled();
    }

    /** `applyEnabled`: at most one style element, present exactly while enabled. */
    method ApplyEnabled()
      requires forceStyles == (if styleHeld then 1 else 0)
      modifies this`styleHeld, this`forceStyles
      ensures forceStyles == (if styleHeld then 1 else 0)
      ensures styleHeld == enabled
    {
      if enabled {
        if !styleHeld {
          forceStyles := forceStyles + 1;
          styleHeld := true;
        }
      } else {
        if styleHeld {
          forceStyles := forceStyles - 1;
          styleHeld := false;
        }
      }
    }

    /** `onKey`: `c` or `C` flips the cursor, stores the new flag and applies it; other keys do nothing. */
    method OnKey(key: Option<string>)
      requires Valid()
      modifies this`enabled, this`styleHeld, this`forceStyles, storage
      ensures Valid()
      ensures enabled == (if IsToggleKey(key) then !old(enabled) else old(enabled))
      ensures styleHeld == enabled
      ensures IsToggleKey(key) ==> storage.items == old(storage.items)[OffKey := OffFlag(enabled)]
      ensures !IsToggleKey(key) ==> storage.items == old(storage.items) && styleHeld == old(styleHeld)
    {
      if IsToggleKey(key) {
        enabled := !enabled;
        storage.SetItem(OffKey, OffFlag(enabled));
        ApplyEnabled();
      }
    }

    /** `onExternal`: a boolean detail sets the cursor, stores the flag and applies it; any other detail is ignored. */
    method OnExternal(detail: Detail)
      requires Valid()
      modifies this`enabled, this`styleHeld, this`forceStyles, storage
      ensures Valid()
      ensures detail.BoolDetail? ==> (enabled == detail.on && styleHeld == enabled
        && storage.items == old(storage.items)[OffKey := OffFlag(enabled)])
      ensures detail.OtherDetail? ==> (enabled == old(enabled) && styleHeld == old(styleHeld)
        && storage.items == old(storage.items))
    {
      if detail.BoolDetail? {
        enabled := detail.on;
        storage.SetItem(OffKey, OffFlag(enabled));
        ApplyEnabled();
      }
    }

    /** Mouse moves and enters show the sun; leaving the window hides it. */
    method OnMouse(inside: bool)
      modifies this`visible
      ensures visible == inside
    {
      visible := inside;
    }

    /** A click starts a pulse. */
    method OnClick()
      modifies this`scale
      ensures scale == 1.25
    {
      scale := 1.25;
    }

    /** One animation frame, given the eased position and the decayed pulse scale. */
    method Step(eased: Point, decayed: real)
      requires Valid()
      modifies this`opacity, this`trail, this`scale
      ensures Valid()
      ensures opacity == Opacity(visible)
      ensures trail == Push(old(trail), eased) && scale == decayed
    {
      opacity := Opacity(visible);
      scale := decayed;
      trail := trail + [eased];
      if |trail| > MaxTrail {
        trail := trail[1..];
      }
    }
  }
}
