/** The drag and presentation state machine of a bottom sheet, as values.

    `Sheet` holds the five quantities the controller updates: the drag
    accumulator, the cached sheet height, the vertical offset of the sheet
    (0 is fully open, -sheetHeight fully closed), the alpha of the dimmed
    background and whether dismissal of the overlay has been requested.
    Each gesture phase is a function from the old value to the new one;
    the controller class in SheetController.dfy is proved to follow them.
 */
module SheetModel {

  /** Speed (points per second) above which releasing the sheet closes it. */
  const ThresholdVelocityToClose: real := 500.0
  /** Fraction of the finger's movement the sheet follows at or below its open baseline. */
  const ContentTransitionFactor: real := 0.8
  /** Fraction of the finger's movement the sheet follows once pulled past its open baseline. */
  const OverContentTransitionFactor: real := 0.1
  /** The sheet closes when dragged down by more than this fraction of its height. */
  const CloseFractionOfHeight: real := 0.5

  datatype Sheet = Sheet(
    transition: real,       // drag accumulator
    sheetHeight: real,      // last measured height of the sheet
    position: real,         // offset of the sheet: 0 open, -sheetHeight closed
    alpha: real,            // alpha of the dimmed background
    dismissRequested: bool  // the overlay has been asked to go away
  )

  /** Outcome of releasing the sheet. */
  datatype Decision = Open | Close

  // ---------------------------------------------------------------------
  // Opening and closing: the end values the animations set

  /** `open(animated:)`: the sheet at its baseline, background fully shown. */
  function Opened(s: Sheet): Sheet
  {
    s.(position := 0.0, alpha := 1.0)
  }

  /** `close(animated:)`: the sheet a full height below its baseline, background hidden. */
  function Closed(s: Sheet): Sheet
  {
    s.(position := -s.sheetHeight, alpha := 0.0)
  }

  /** `close(animated: true) { dismiss }`: closes, then the completion asks for dismissal. */
  function ClosedAndDismissed(s: Sheet): Sheet
  {
    Closed(s).(dismissRequested := true)
  }

  // ---------------------------------------------------------------------
  // The pan gesture

  /** `.began`: only the cached height is refreshed from the measured frame. */
  function Began(s: Sheet, sheetFrameHeight: real): Sheet
  {
    s.(sheetHeight := sheetFrameHeight)
  }

  /** Resistance chosen by the offset the sheet had before this event. */
  function Factor(position: real): real
  {
    if position > 0.0 then OverContentTransitionFactor else ContentTransitionFactor
  }

  /** The dead zone `0 ..< inset`: a value inside it goes to `inset` while the
      finger moves up and to 0 otherwise. */
  function SnapDeadZone(t: real, translation: real, inset: real): real
  {
    if 0.0 <= t < inset then (if translation < 0.0 then inset else 0.0) else t
  }

  /** `.changed` with the vertical translation since the previous event and the
      bottom safe-area inset. The accumulator never rests strictly inside the
      dead zone, the offset follows the accumulator, and nothing else moves.
      A negative inset would make the range `0 ..< inset` trap. */
  function Changed(s: Sheet, translation: real, inset: real): (r: Sheet)
    requires inset >= 0.0
    ensures !(0.0 < r.transition < inset)
    ensures r.position == r.transition
    ensures r.sheetHeight == s.sheetHeight && r.alpha == s.alpha
    ensures r.dismissRequested == s.dismissRequested
  {
    var t := SnapDeadZone(s.transition - translation * Factor(s.position), translation, inset);
    s.(transition := t, position := t)
  }

  /** The release rule: a fast downward fling, or a drag past half the height. */
  function Decide(velocity: real, transition: real, sheetHeight: real): Decision
  {
    if velocity > ThresholdVelocityToClose || transition < -(sheetHeight * CloseFractionOfHeight)
    then Close
    else Open
  }

  /** `.ended` with the vertical velocity at release: closes and asks for
      dismissal exactly when the fling is faster than 500 or the sheet is more
      than half its height down, otherwise opens; either way the accumulator
      returns to 0. */
  function Ended(s: Sheet, velocity: real): (r: Sheet)
    ensures r.transition == 0.0 && r.sheetHeight == s.sheetHeight
    ensures velocity > 500.0 || s.transition < -(s.sheetHeight * 0.5) ==>
              r.position == -s.sheetHeight && r.alpha == 0.0 && r.dismissRequested
    ensures !(velocity > 500.0 || s.transition < -(s.sheetHeight * 0.5)) ==>
              r.position == 0.0 && r.alpha == 1.0 && r.dismissRequested == s.dismissRequested
  {
    var moved := if Decide(velocity, s.transition, s.sheetHeight) == Close
                 then ClosedAndDismissed(s) else Opened(s);
    moved.(transition := 0.0)
  }

  /** A run of `.changed` events with the given translations, in order. */
  function Drag(s: Sheet, translations: seq<real>, inset: real): (r: Sheet)
    requires inset >= 0.0
    ensures r.sheetHeight == s.sheetHeight && r.alpha == s.alpha
    ensures r.dismissRequested == s.dismissRequested
    ensures translations != [] ==> !(0.0 < r.transition < inset) && r.position == r.transition
    decreases |translations|
  {
    if translations == [] then s
    else Drag(Changed(s, translations[0], inset), translations[1..], inset)
  }

  /** A whole gesture: `.began` with the measured height, the `.changed` events, `.ended`. */
  function Gesture(s: Sheet, sheetFrameHeight: real, translations: seq<real>, inset: real, velocity: real): Sheet
    requires inset >= 0.0
  {
    Ended(Drag(Began(s, sheetFrameHeight), translations, inset), velocity)
  }

  /** What the release of a whole gesture decides. */
  function GestureDecision(s: Sheet, sheetFrameHeight: real, translations: seq<real>, inset: real, velocity: real): Decision
    requires inset >= 0.0
  {
    Decide(velocity, Drag(Began(s, sheetFrameHeight), translations, inset).transition, sheetFrameHeight)
  }

  function Sum(xs: seq<real>): real
  {
    if xs == [] then 0.0 else xs[0] + Sum(xs[1..])
  }

  // ---------------------------------------------------------------------
  // Properties of a single event

  /** The accumulator moves by 0.1 of the translation when the previous offset
      was above the baseline and by 0.8 otherwise (the offset after the event
      plays no part), and the dead zone snaps by the finger's direction. */
  lemma ChangedStep(s: Sheet, translation: real, inset: real)
    requires inset >= 0.0
    ensures var raw := s.transition - translation * (if s.position > 0.0 then 0.1 else 0.8);
            var r := Changed(s, translation, inset);
            (0.0 <= raw < inset ==> r.transition == (if translation < 0.0 then inset else 0.0)) &&
            (!(0.0 <= raw < inset) ==> r.transition == raw)
  {
  }

  /** Without a bottom inset the dead zone is empty and nothing snaps. */
  lemma NoInsetNoSnap(s: Sheet, translation: real)
    ensures Changed(s, translation, 0.0).transition == s.transition - translation * Factor(s.position)
  {
  }

  /** The factor is keyed to the offset before the event. With the
      accumulator at 34 and the offset also at 34 (above the baseline), a
      downward pull of 100 moves it by only 10 and it snaps back to the
      baseline; with the same accumulator but the offset at the baseline, the
      same pull moves it by 80, to 46 below. */
  lemma OverPullResists()
    ensures Changed(Sheet(34.0, 400.0, 34.0, 1.0, false), 100.0, 34.0).transition == 0.0
    ensures Changed(Sheet(34.0, 400.0, 0.0, 1.0, false), 100.0, 34.0).transition == -46.0
  {
  }

  // ---------------------------------------------------------------------
  // Properties of the release rule

  /** Releasing with no accumulated drag and no fast fling opens, even before
      any layout (height 0): the threshold is a product, not a quotient. Both
      comparisons are strict. */
  lemma ReleaseAtRestOpens(velocity: real, sheetHeight: real)
    requires velocity <= ThresholdVelocityToClose && sheetHeight >= 0.0
    ensures Decide(velocity, 0.0, sheetHeight) == Open
    ensures Decide(ThresholdVelocityToClose, 0.0, sheetHeight) == Open
    ensures Decide(velocity, -(sheetHeight * 0.5), sheetHeight) == Open
  {
  }

  /** Either closing condition alone closes, whatever the other quantity is. */
  lemma EitherConditionCloses(velocity: real, transition: real, sheetHeight: real)
    ensures velocity > 500.0 ==> Decide(velocity, transition, sheetHeight) == Close
    ensures transition < -(sheetHeight * 0.5) ==> Decide(velocity, transition, sheetHeight) == Close
    ensures Decide(velocity, transition, sheetHeight) == Close ==>
              velocity > 500.0 || transition < -(sheetHeight * 0.5)
  {
  }

  /** A faster fling or a deeper drag never turns a close into an open. */
  lemma CloseIsMonotone(v: real, t: real, v': real, t': real, sheetHeight: real)
    requires Decide(v, t, sheetHeight) == Close && v' >= v && t' <= t
    ensures Decide(v', t', sheetHeight) == Close
  {
  }

  // ---------------------------------------------------------------------
  // Properties of whole drags

  /** The accumulator never moves up while the finger only moves down. */
  lemma {:induction false} DragDownNeverRaises(s: Sheet, translations: seq<real>, inset: real)
    requires inset >= 0.0
    requires forall i :: 0 <= i < |translations| ==> translations[i] >= 0.0
    ensures Drag(s, translations, inset).transition <= s.transition
    decreases |translations|
  {
    if translations != [] {
      var tr := translations[0];
      assert Factor(s.position) > 0.0;
      var raw := s.transition - tr * Factor(s.position);
      assert raw <= s.transition;
      var s1 := Changed(s, tr, inset);
      assert s1.transition <= s.transition;
      DragDownNeverRaises(s1, translations[1..], inset);
    }
  }

  /** The accumulator never moves down while the finger only moves up (or
      rests), provided it does not start inside the dead zone. */
  lemma {:induction false} DragUpNeverLowers(s: Sheet, translations: seq<real>, inset: real)
    requires inset >= 0.0 && !(0.0 < s.transition < inset)
    requires forall i :: 0 <= i < |translations| ==> translations[i] <= 0.0
    ensures Drag(s, translations, inset).transition >= s.transition
    decreases |translations|
  {
    if translations != [] {
      var tr := translations[0];
      assert Factor(s.position) > 0.0;
      var raw := s.transition - tr * Factor(s.position);
      assert raw >= s.transition;
      var s1 := Changed(s, tr, inset);
      assert s1.transition >= s.transition;
      DragUpNeverLowers(s1, translations[1..], inset);
    }
  }

  /** While the sheet is at or below its baseline and the finger only moves
      down, the sheet follows exactly 0.8 of the finger's total travel. */
  lemma {:induction false} DragDownFollowsFinger(s: Sheet, translations: seq<real>, inset: real)
    requires inset >= 0.0 && s.transition <= 0.0 && s.position <= 0.0
    requires forall i :: 0 <= i < |translations| ==> translations[i] >= 0.0
    ensures Drag(s, translations, inset).transition == s.transition - 0.8 * Sum(translations)
    decreases |translations|
  {
    if translations != [] {
      var tr := translations[0];
      var s1 := Changed(s, tr, inset);
      assert s1.transition == s.transition - 0.8 * tr;
      DragDownFollowsFinger(s1, translations[1..], inset);
    }
  }

  /** A gesture whose finger only moves up (or not at all), started with the
      accumulator at rest, opens unless released with a fast fling. After
      layout the height is never negative. */
  lemma {:induction false} UpwardGestureOpens(s: Sheet, sheetFrameHeight: real, translations: seq<real>, inset: real, velocity: real)
    requires inset >= 0.0 && sheetFrameHeight >= 0.0 && s.transition == 0.0
    requires forall i :: 0 <= i < |translations| ==> translations[i] <= 0.0
    requires velocity <= ThresholdVelocityToClose
    ensures GestureDecision(s, sheetFrameHeight, translations, inset, velocity) == Open
    ensures var r := Gesture(s, sheetFrameHeight, translations, inset, velocity);
            r.position == 0.0 && r.alpha == 1.0 && r.transition == 0.0 &&
            r.dismissRequested == s.dismissRequested
  {
    DragUpNeverLowers(Began(s, sheetFrameHeight), translations, inset);
  }

  /** A gesture released faster than 500 closes and requests dismissal,
      whatever the drag did. */
  lemma FlingGestureCloses(s: Sheet, sheetFrameHeight: real, translations: seq<real>, inset: real, velocity: real)
    requires inset >= 0.0 && velocity > ThresholdVelocityToClose
    ensures GestureDecision(s, sheetFrameHeight, translations, inset, velocity) == Close
    ensures var r := Gesture(s, sheetFrameHeight, translations, inset, velocity);
            r.position == -sheetFrameHeight && r.alpha == 0.0 && r.transition == 0.0 && r.dismissRequested
  {
  }

  // ---------------------------------------------------------------------
  // Worked scenarios: an open sheet 400 high, no bottom inset given

  /** 312.5 points of downward travel drag the accumulator to -250, past the
      halfway mark of -200, so a slow release (100) still closes. */
  lemma DraggedPastHalfwayCloses(inset: real)
    requires inset >= 0.0
    ensures var s := Sheet(0.0, 400.0, 0.0, 1.0, false);
            var trs := [100.0, 112.5, 100.0];
            Drag(Began(s, 400.0), trs, inset).transition == -250.0 &&
            GestureDecision(s, 400.0, trs, inset, 100.0) == Close
  {
  }

  /** 187.5 points of travel give -150, short of halfway: a slow release opens. */
  lemma DraggedShortOfHalfwayOpens(inset: real)
    requires inset >= 0.0
    ensures var s := Sheet(0.0, 400.0, 0.0, 1.0, false);
            Drag(Began(s, 400.0), [187.5], inset).transition == -150.0 &&
            GestureDecision(s, 400.0, [187.5], inset, 100.0) == Open
  {
  }

  /** 12.5 points of travel give only -10, but a release at 600 closes. */
  lemma SmallDragFastFlingCloses(inset: real)
    requires inset >= 0.0
    ensures var s := Sheet(0.0, 400.0, 0.0, 1.0, false);
            Drag(Began(s, 400.0), [12.5], inset).transition == -10.0 &&
            GestureDecision(s, 400.0, [12.5], inset, 600.0) == Close
  {
  }

  // ---------------------------------------------------------------------
  // Drags with no net finger travel

  /** Running two drags one after the other is one drag over both. */
  lemma {:induction false} DragAppend(s: Sheet, xs: seq<real>, ys: seq<real>, inset: real)
    requires inset >= 0.0
    ensures Drag(s, xs + ys, inset) == Drag(Drag(s, xs, inset), ys, inset)
    decreases |xs|
  {
    if xs != [] {
      assert (xs + ys)[0] == xs[0];
      assert (xs + ys)[1..] == xs[1..] + ys;
      DragAppend(Changed(s, xs[0], inset), xs[1..], ys, inset);
    } else {
      assert xs + ys == ys;
    }
  }

  lemma {:induction false} SumAppend(xs: seq<real>, ys: seq<real>)
    ensures Sum(xs + ys) == Sum(xs) + Sum(ys)
    decreases |xs|
  {
    if xs == [] {
      assert xs + ys == ys;
    } else {
      assert (xs + ys)[0] == xs[0];
      assert (xs + ys)[1..] == xs[1..] + ys;
      SumAppend(xs[1..], ys);
    }
  }

  /** Measure of the accumulator that finger travel can lower by at most its
      own length when there is no dead zone: 10 per point above the baseline,
      1.25 per point at or below it. */
  function Potential(t: real): real
  {
    if t > 0.0 then 10.0 * t else 1.25 * t
  }

  /** Without a dead zone, a run of change events lowers the potential of the
      accumulator by at most the finger's total travel, as long as the offset
      starts on the same side of the baseline as the accumulator. */
  lemma {:induction false} DragPotentialBound(s: Sheet, translations: seq<real>)
    requires (s.position > 0.0) == (s.transition > 0.0)
    ensures Potential(Drag(s, translations, 0.0).transition) >= Potential(s.transition) - Sum(translations)
    decreases |translations|
  {
    if translations != [] {
      var tr := translations[0];
      var s1 := Changed(s, tr, 0.0);
      if s.transition > 0.0 {
        assert s1.transition == s.transition - 0.1 * tr;
      } else {
        assert s1.transition == s.transition - 0.8 * tr;
      }
      assert Potential(s1.transition) >= Potential(s.transition) - tr;
      DragPotentialBound(s1, translations[1..]);
    }
  }

  /** Without a bottom inset, a gesture from rest whose translations add up
      to zero, released no faster than 500, opens. */
  lemma NetZeroOpensWithoutInset(s: Sheet, sheetFrameHeight: real, translations: seq<real>, velocity: real)
    requires s.transition == 0.0 && s.position <= 0.0 && sheetFrameHeight >= 0.0
    requires Sum(translations) == 0.0 && velocity <= ThresholdVelocityToClose
    ensures Drag(Began(s, sheetFrameHeight), translations, 0.0).transition >= 0.0
    ensures GestureDecision(s, sheetFrameHeight, translations, 0.0, velocity) == Open
  {
    DragPotentialBound(Began(s, sheetFrameHeight), translations);
  }

  /** One up-flick past the dead zone, a 1-point nudge down that the dead zone
      turns into a snap to the baseline, and the rest of the way back down:
      no net travel, yet the accumulator ends 33.2 lower. The inset is 34. */
  function Cycle(a: real): seq<real>
  {
    [-1.25 * (a + 34.0), 1.0, 1.25 * (a + 34.0) - 1.0]
  }

  /** `n` cycles, each starting where the previous one ended. */
  function Cycles(a: real, n: nat): seq<real>
    decreases n
  {
    if n == 0 then [] else Cycle(a) + Cycles(a + 33.2, n - 1)
  }

  lemma CycleLowers(s: Sheet, a: real)
    requires a >= 0.0 && s.transition == -a && s.position == -a
    ensures Sum(Cycle(a)) == 0.0
    ensures var r := Drag(s, Cycle(a), 34.0); r.transition == -(a + 33.2) && r.position == r.transition
  {
    var c := Cycle(a);
    assert c[1..] == [c[1], c[2]] && c[1..][1..] == [c[2]] && c[1..][1..][1..] == [];
    assert Sum(c[1..][1..]) == c[2];
    assert Sum(c[1..]) == c[1] + c[2];
    var s1 := Changed(s, c[0], 34.0);
    assert s1.transition == 34.0;
    var s2 := Changed(s1, c[1], 34.0);
    assert s2.transition == 0.0;
    var s3 := Changed(s2, c[2], 34.0);
    assert s3.transition == -(a + 33.2);
    assert Drag(s, c, 34.0) == Drag(s1, c[1..], 34.0) == Drag(s2, c[1..][1..], 34.0) == s3;
  }

  lemma {:induction false} CyclesLower(s: Sheet, a: real, n: nat)
    requires a >= 0.0 && s.transition == -a && s.position == -a
    ensures Sum(Cycles(a, n)) == 0.0
    ensures Drag(s, Cycles(a, n), 34.0).transition == -(a + 33.2 * (n as real))
    decreases n
  {
    if n > 0 {
      CycleLowers(s, a);
      var s1 := Drag(s, Cycle(a), 34.0);
      CyclesLower(s1, a + 33.2, n - 1);
      DragAppend(s, Cycle(a), Cycles(a + 33.2, n - 1), 34.0);
      SumAppend(Cycle(a), Cycles(a + 33.2, n - 1));
    }
  }

  /** With a 34-point bottom inset, seven such cycles on an open sheet 400
      high add up to no finger travel, yet drag the accumulator to -232.4,
      past the halfway mark: a release at rest closes the sheet. */
  lemma NetZeroDragCloses()
    ensures var s := Sheet(0.0, 400.0, 0.0, 1.0, false);
            Sum(Cycles(0.0, 7)) == 0.0 &&
            Drag(Began(s, 400.0), Cycles(0.0, 7), 34.0).transition == -232.4 &&
            GestureDecision(s, 400.0, Cycles(0.0, 7), 34.0, 0.0) == Close
  {
    CyclesLower(Sheet(0.0, 400.0, 0.0, 1.0, false), 0.0, 7);
  }
}
