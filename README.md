# BottomSheetController in Dafny

A model of `BottomSheetController`, a modal bottom sheet: a dimmed background
with a panel anchored to the bottom of the screen. The panel is opened when
the controller appears, can be dragged with a pan gesture, snaps open or
closed when the gesture ends, and closes (then asks to be dismissed) on a
background tap or a programmatic `complete`.

- `SheetModel.dfy` — the state machine as values. `Sheet` holds the drag
  accumulator (`transition`), the cached `sheetHeight`, the sheet offset
  (`position.constant`: 0 open, `-sheetHeight` closed), the background alpha
  and a dismissal-requested flag. `Changed`, `Ended`, `Began` and the
  open/close functions give each transition. `Drag`/`Gesture` fold whole
  gestures. Lemmas state the resistance factors, the dead zone, the release
  rule and the worked scenarios.
- `SheetController.dfy` — the controller as a class whose fields the handlers
  update in place, and a small pan-recognizer class whose translation the
  controller reads and resets. Each handler's `ensures` gives its new state,
  mostly as the matching `SheetModel` function of the old state.

Conventions taken from the code:
- `CGFloat` is `real`.
- Measured quantities are method parameters: the sheet's frame height and the
  bottom safe-area inset. The recognizer's translation and velocity are fields
  of the recognizer object.
- A positive translation (the finger moving down) lowers `transition` towards
  `-sheetHeight`, which is closed. A release velocity above 500 therefore
  closes.
- The dead zone is the half-open range `0 ..< inset`. An accumulator of exactly
  0 is inside it. With a positive inset, an upward move that lands on 0 snaps
  to the inset.
- An animation is modelled by the values it ends with. Closing with a
  completion sets `dismissRequested`.
- The `DispatchQueue.main.async` open in `viewWillAppear` is modelled as a
  counter of queued opens. `RunScheduledOpen` runs one of them.
- Phases other than began, changed and ended (possible, cancelled, failed)
  change nothing. So a cancelled drag leaves `transition` and the offset where
  the last change event put them.
- Finger travel that adds up to zero does not always bring the sheet back.
  The snap from the dead zone to 0 (line 206) lowers the accumulator by up to
  one inset with no finger travel. With a 34-point inset, a gesture can
  therefore drag an open sheet past halfway with zero net travel, and a
  release at rest then closes it (`SheetModel.NetZeroDragCloses`). With no
  inset, such a gesture always opens (`SheetModel.NetZeroOpensWithoutInset`).

## Model

| member | source | states |
|---|---|---|
| `SheetModel.Opened` | Sources/BottomSheetController/BottomSheetController.swift:152-171 | the end state of `open(animated:)`, animated or not: offset 0 and alpha 1, everything else (dismissal included) as before |
| `SheetModel.Closed` | Sources/BottomSheetController/BottomSheetController.swift:173-192 | the end state of `close(animated:)` without a completion: offset `-sheetHeight` and alpha 0, everything else as before |
| `SheetModel.ClosedAndDismissed` | Sources/BottomSheetController/BottomSheetController.swift:214-216 | the end state of a close whose completion dismisses: as `Closed`, with dismissal requested |
| `SheetModel.Began` | Sources/BottomSheetController/BottomSheetController.swift:196-197 | `.began`: the cached height becomes the measured frame height, nothing else changes |
| `SheetModel.Decide` | Sources/BottomSheetController/BottomSheetController.swift:213 | Close iff `velocity > 500` or `transition < -(sheetHeight * 0.5)`, else Open |
| `SheetModel.Gesture` | Sources/BottomSheetController/BottomSheetController.swift:194-221 | the state after a whole pan: `.began` with the measured height, the `.changed` events in order, then `.ended` with the release velocity |
| `SheetModel.GestureDecision` | Sources/BottomSheetController/BottomSheetController.swift:194-221 | the release decision of a whole pan: the release rule applied to the accumulator the change events leave and to the height measured at `.began` |
| `SheetModel.Changed` | Sources/BottomSheetController/BottomSheetController.swift:198-210 | after a change event the accumulator is never strictly between 0 and the inset, the offset equals the accumulator, and height, alpha and dismissal are unchanged |
| `SheetModel.ChangedStep` | Sources/BottomSheetController/BottomSheetController.swift:199-208 | the update rule itself, restated with the source's literal constants 0.1 and 0.8 instead of their names: the accumulator drops by 0.1 of the translation when the offset before the event was positive and by 0.8 otherwise; a raw value in `[0, inset)` becomes the inset when the translation is negative and 0 otherwise; any other raw value is kept |
| `SheetModel.NoInsetNoSnap` | Sources/BottomSheetController/BottomSheetController.swift:202-208 | with a zero inset the dead zone is empty and the raw update is kept |
| `SheetModel.OverPullResists` | Sources/BottomSheetController/BottomSheetController.swift:200-206 | the factor is taken from the previous offset: with the accumulator at 34, a pull of 100 ends at 0 (factor 0.1, then the snap) when the offset was 34, but at -46 (factor 0.8) when the offset was 0 |
| `SheetModel.Ended` | Sources/BottomSheetController/BottomSheetController.swift:211-221 | release closes (offset `-sheetHeight`, alpha 0, dismissal requested) iff `velocity > 500` or `transition < -(sheetHeight * 0.5)`, otherwise opens (offset 0, alpha 1, dismissal flag untouched); the accumulator is 0 afterwards in both cases |
| `SheetModel.ReleaseAtRestOpens` | Sources/BottomSheetController/BottomSheetController.swift:213 | with no accumulated drag, a velocity of at most 500 and a height of at least 0 (0 included) the release opens; velocity exactly 500 and a drag of exactly half the height also open, since both comparisons are strict |
| `SheetModel.EitherConditionCloses` | Sources/BottomSheetController/BottomSheetController.swift:211-219 | the release rule itself, restated with the literals 500 and 0.5 and split into its two directions: a fling above 500 closes whatever the drag was, a drag past half the height closes whatever the velocity was, and nothing else closes |
| `SheetModel.CloseIsMonotone` | Sources/BottomSheetController/BottomSheetController.swift:213 | a faster release or a deeper drag never turns a close into an open |
| `SheetModel.Drag` | Sources/BottomSheetController/BottomSheetController.swift:198-210 | after any non-empty run of change events the accumulator is outside the dead zone's interior and the offset equals it; height, alpha and dismissal are never touched during a drag |
| `SheetModel.DragDownNeverRaises` | Sources/BottomSheetController/BottomSheetController.swift:198-208 | while the finger only moves down, the accumulator never increases |
| `SheetModel.DragUpNeverLowers` | Sources/BottomSheetController/BottomSheetController.swift:198-208 | while the finger only moves up or rests, and the accumulator does not start inside the dead zone, the accumulator never decreases |
| `SheetModel.DragDownFollowsFinger` | Sources/BottomSheetController/BottomSheetController.swift:199-201 | starting at or below the baseline, a downward-only drag moves the accumulator by exactly 0.8 of the finger's total travel |
| `SheetModel.UpwardGestureOpens` | Sources/BottomSheetController/BottomSheetController.swift:194-221 | a whole gesture that starts at rest and moves only up or not at all, released no faster than 500, opens: offset 0, alpha 1, accumulator 0, no dismissal |
| `SheetModel.DragAppend` | Sources/BottomSheetController/BottomSheetController.swift:198-210 | change events over two runs of translations, one after the other, give the same state as change events over their concatenation |
| `SheetModel.DragPotentialBound` | Sources/BottomSheetController/BottomSheetController.swift:198-210 | with no inset, a run of change events lowers the accumulator's potential (10 per point above the baseline, 1.25 per point at or below it) by at most the finger's total travel |
| `SheetModel.NetZeroOpensWithoutInset` | Sources/BottomSheetController/BottomSheetController.swift:198-219 | with no inset, a gesture from rest whose translations add up to zero ends with the accumulator at or above 0 and, released no faster than 500, opens |
| `SheetModel.CycleLowers` | Sources/BottomSheetController/BottomSheetController.swift:198-210 | with a 34-point inset, one up-flick, a 1-point nudge down and the return travel add up to zero, yet the accumulator ends 33.2 lower, because the nudge lands in the dead zone and snaps to 0 |
| `SheetModel.CyclesLower` | Sources/BottomSheetController/BottomSheetController.swift:198-210 | n such cycles add up to zero travel and lower the accumulator by 33.2 n |
| `SheetModel.NetZeroDragCloses` | Sources/BottomSheetController/BottomSheetController.swift:198-219 | on an open sheet 400 high with a 34-point inset, seven cycles (zero net travel) bring the accumulator to -232.4, past halfway, so a release at velocity 0 closes |
| `SheetModel.FlingGestureCloses` | Sources/BottomSheetController/BottomSheetController.swift:211-219 | a whole gesture released faster than 500 closes to the freshly measured height and requests dismissal |
| `SheetModel.DraggedPastHalfwayCloses` | Sources/BottomSheetController/BottomSheetController.swift:211-219 | height 400, accumulator driven to -250, release at 100: closes |
| `SheetModel.DraggedShortOfHalfwayOpens` | Sources/BottomSheetController/BottomSheetController.swift:211-219 | height 400, accumulator -150, release at 100: opens |
| `SheetModel.SmallDragFastFlingCloses` | Sources/BottomSheetController/BottomSheetController.swift:211-219 | height 400, accumulator -10, release at 600: closes |
| `SheetController.BottomSheetController.constructor` | Sources/BottomSheetController/BottomSheetController.swift:38-82 | starts with a 50%-alpha black background colour, a white content colour, accumulator and height 0, no dismissal and no queued open, and with the surfaces and constraint as the layout file sets them |
| `SheetController.BottomSheetController.SetBackgroundColor` | Sources/BottomSheetController/BottomSheetController.swift:37-43 | stores the colour and repaints only the background surface |
| `SheetController.BottomSheetController.UpdateBackgroundColor` | Sources/BottomSheetController/BottomSheetController.swift:140-143 | paints the background surface with the stored background colour |
| `SheetController.BottomSheetController.SetContentBackgroundColor` | Sources/BottomSheetController/BottomSheetController.swift:44-49 | stores the colour; header, intermediate and filler take it and the background surface keeps its colour |
| `SheetController.BottomSheetController.UpdateContentBackgroundColor` | Sources/BottomSheetController/BottomSheetController.swift:145-150 | paints header, intermediate and filler with the stored content colour and leaves the background surface alone |
| `SheetController.BottomSheetController.Open` | Sources/BottomSheetController/BottomSheetController.swift:152-171 | offset 0 and alpha 1, animated or not; dismissal is never requested |
| `SheetController.BottomSheetController.Close` | Sources/BottomSheetController/BottomSheetController.swift:173-192 | offset `-sheetHeight` and alpha 0; dismissal is requested exactly when a dismissing completion is passed |
| `SheetController.BottomSheetController.Present` | Sources/BottomSheetController/BottomSheetController.swift:107-114 | height becomes the measured frame height, offset `-height`, alpha 0, one more open queued; accumulator and dismissal unchanged |
| `SheetController.BottomSheetController.RunScheduledOpen` | Sources/BottomSheetController/BottomSheetController.swift:111-113 | a queued open sets offset 0 and alpha 1 and is used up; with nothing queued, nothing changes |
| `SheetController.BottomSheetController.Complete` | Sources/BottomSheetController/BottomSheetController.swift:122-127 | re-measures the height, closes to `-height` with alpha 0 and requests dismissal |
| `SheetController.BottomSheetController.TapBackground` | Sources/BottomSheetController/BottomSheetController.swift:227-229 | a background tap has the same effect as `complete` |
| `SheetController.BottomSheetController.PanBegan` | Sources/BottomSheetController/BottomSheetController.swift:196-197 | only the cached height changes, to the measured frame height |
| `SheetController.BottomSheetController.PanChanged` | Sources/BottomSheetController/BottomSheetController.swift:198-210 | the new state is `SheetModel.Changed` of the old one with the recognizer's translation; the recognizer's translation is reset to 0 |
| `SheetController.BottomSheetController.PanEnded` | Sources/BottomSheetController/BottomSheetController.swift:211-221 | the new state is `SheetModel.Ended` of the old one with the recognizer's velocity; the decision returned is the release rule's; accumulator and recognizer translation are 0 |
| `SheetController.BottomSheetController.DidPan` | Sources/BottomSheetController/BottomSheetController.swift:194-225 | dispatches on the recognizer's phase to began, changed or ended as above; every other phase leaves controller and recognizer unchanged |

## Left out

- The modal presentation settings both initialisers make (`modalPresentationStyle = .overFullScreen`, `modalTransitionStyle = .crossDissolve`), view hierarchy, layout-file outlets, Auto Layout, and content embedding with child-controller containment in `viewDidLoad`. This is framework plumbing, so the two initialisers collapse into one constructor that ignores the content. The lazy `loadViewIfNeeded` in the colour setters is not modelled: the surfaces always exist.
- Animation durations, curves and spring damping (0.3 s, spring damping 1.0, 0.2 s). Only the values each animation ends with are modelled. Dismissal, which the close animation's completion performs, is the `dismissRequested` flag set right away.
- `DispatchQueue.main.async`. It is an explicit second step (`RunScheduledOpen`), not concurrency.
- The rounded-header mask (`configureRoundedHeader`, called from the outlet's `didSet` and from `viewDidLayoutSubviews`). It is graphics with a fixed 16-point radius.
- `init(coder:)`. It is unavailable and ends the process.
- IEEE floating point. `CGFloat` is modelled as exact `real`.
- SheetController.BottomSheetController.PanChanged: requires a non-negative bottom inset. Swift's `0..<x` traps when `x` is negative, and safe-area insets are never negative.
- The demo application (`Example/Example/*.swift`) and `Package.swift`. They are demo glue and a build manifest.
- The offset is not kept within `[-sheetHeight, 0]` outside a drag: a cancelled drag leaves it where the last change event put it (line 222), so no such invariant is stated.
