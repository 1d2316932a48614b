/** The bottom-sheet controller as an object whose fields its handlers update
    in place. Measured quantities (the sheet's frame height, the bottom
    safe-area inset) are parameters; the pan gesture recognizer is an object
    of its own whose translation the controller reads and resets. The pan
    handlers and open, close and complete are proved to move the controller's
    state exactly as the corresponding functions of SheetModel do; the other
    handlers state their new fields directly. */
module SheetController {
  import SheetModel

  datatype Option<T> = None | Some(value: T)

  /** A colour, as red, green, blue and alpha components. */
  datatype Color = Rgba(red: real, green: real, blue: real, alpha: real)

  /** 50%-opaque black, the default colour of the dimmed background. */
  const DefaultBackgroundColor: Color := Rgba(0.0, 0.0, 0.0, 0.5)
  /** Opaque white, the default colour of the sheet. */
  const DefaultContentBackgroundColor: Color := Rgba(1.0, 1.0, 1.0, 1.0)

  /** The colours of the four painted surfaces: background, rounded header,
      intermediate body and the filler below the content. */
  datatype Surfaces = Surfaces(background: Color, header: Color, intermediate: Color, filler: Color)

  /** What the layout file sets before any code runs. */
  datatype Nib = Nib(position: real, alpha: real, surfaces: Surfaces)

  /** Phases a pan gesture recognizer reports. */
  datatype GestureState = Possible | Began | Changed | Ended | Cancelled | Failed

  /** The pan gesture recognizer, reduced to what the controller reads and writes. */
  class PanGestureRecognizer {
    var state: GestureState
    var translation: real   // vertical translation since it was last reset
    var velocity: real      // vertical velocity, points per second

    constructor (state: GestureState, translation: real, velocity: real)
      ensures this.state == state && this.translation == translation && this.velocity == velocity
    {
      this.state := state;
      this.translation := translation;
      this.velocity := velocity;
    }
  }

  class BottomSheetController {
    var backgroundColor: Color
    var contentBackgroundColor: Color
    var transition: real          // drag accumulator
    var sheetHeight: real         // cached height of the sheet
    var position: real            // offset constraint: 0 open, -sheetHeight closed
    var backgroundAlpha: real
    var dismissRequested: bool
    var pendingOpens: nat         // opens queued on the main queue, not yet run
    var surfaces: Surfaces

    /** The drag-related part of the state, as a SheetModel value. */
    function Snapshot(): SheetModel.Sheet
      reads this
    {
      SheetModel.Sheet(transition, sheetHeight, position, backgroundAlpha, dismissRequested)
    }

    /** Both public initialisers: the content (a view or a view controller) is
        not modelled; the surfaces and constraint start as the layout file has them. */
    constructor (nib: Nib)
      ensures backgroundColor == DefaultBackgroundColor
      ensures contentBackgroundColor == DefaultContentBackgroundColor
      ensures transition == 0.0 && sheetHeight == 0.0
      ensures position == nib.position && backgroundAlpha == nib.alpha
      ensures !dismissRequested && pendingOpens == 0
      ensures surfaces == nib.surfaces
    {
      backgroundColor := DefaultBackgroundColor;
      contentBackgroundColor := DefaultContentBackgroundColor;
      transition := 0.0;
      sheetHeight := 0.0;
      position := nib.position;
      backgroundAlpha := nib.alpha;
      dismissRequested := false;
      pendingOpens := 0;
      surfaces := nib.surfaces;
    }

    // -------------------------------------------------------------------
    // Colours

    /** Setting `backgroundColor` repaints the background surface only. */
    method SetBackgroundColor(c: Color)
      modifies this`backgroundColor, this`surfaces
      ensures backgroundColor == c
      ensures surfaces == old(surfaces).(background := c)
    {
      backgroundColor := c;
      UpdateBackgroundColor();
    }

    method UpdateBackgroundColor()
      modifies this`surfaces
      ensures surfaces == old(surfaces).(background := backgroundColor)
    {
      surfaces := surfaces.(background := backgroundColor);
    }

    /** Setting `contentBackgroundColor` repaints header, body and filler and
        leaves the background surface alone. */
    method SetContentBackgroundColor(c: Color)
      modifies this`contentBackgroundColor, this`surfaces
      ensures contentBackgroundColor == c
      ensures surfaces == Surfaces(old(surfaces).background, c, c, c)
    {
      contentBackgroundColor := c;
      UpdateContentBackgroundColor();
    }

    method UpdateContentBackgroundColor()
      modifies this`surfaces
      ensures surfaces.background == old(surfaces).background
      ensures surfaces.header == contentBackgroundColor
      ensures surfaces.intermediate == contentBackgroundColor
      ensures surfaces.filler == contentBackgroundColor
    {
      surfaces := surfaces.(header := contentBackgroundColor);
      surfaces := surfaces.(intermediate := contentBackgroundColor);
      surfaces := surfaces.(filler := contentBackgroundColor);
    }

    // -------------------------------------------------------------------
    // Opening and closing (end values of the animations)

    /** `open(animated:)`: offset 0 and background alpha 1; never dismisses. */
    method Open()
      modifies this`position, this`backgroundAlpha
      ensures Snapshot() == SheetModel.Opened(old(Snapshot()))
      ensures position == 0.0 && backgroundAlpha == 1.0
    {
      position := 0.0;
      backgroundAlpha := 1.0;
    }

    /** `close(animated:completion:)`: offset -sheetHeight and alpha 0; the
        completion, when given, asks for dismissal. */
    method Close(dismissAfter: bool)
      modifies this`position, this`backgroundAlpha, this`dismissRequested
      ensures Snapshot() == if dismissAfter then SheetModel.ClosedAndDismissed(old(Snapshot()))
                            else SheetModel.Closed(old(Snapshot()))
      ensures position == -sheetHeight && backgroundAlpha == 0.0
      ensures dismissRequested == (old(dismissRequested) || dismissAfter)
    {
      backgroundAlpha := 0.0;
      position := -sheetHeight;
      if dismissAfter {
        dismissRequested := true;
      }
    }

    /** `viewWillAppear`: measure the sheet, close without animation and queue an open. */
    method Present(sheetFrameHeight: real)
      modifies this`sheetHeight, this`position, this`backgroundAlpha, this`dismissRequested, this`pendingOpens
      ensures sheetHeight == sheetFrameHeight
      ensures position == -sheetFrameHeight && backgroundAlpha == 0.0
      ensures pendingOpens == old(pendingOpens) + 1
      ensures transition == old(transition) && dismissRequested == old(dismissRequested)
    {
      sheetHeight := sheetFrameHeight;
      Close(false);
      pendingOpens := pendingOpens + 1;
    }

    /** The main queue runs one open queued by `Present`, if there is one. */
    method RunScheduledOpen()
      modifies this`position, this`backgroundAlpha, this`pendingOpens
      ensures old(pendingOpens) > 0 ==>
                pendingOpens == old(pendingOpens) - 1 && position == 0.0 && backgroundAlpha == 1.0
      ensures old(pendingOpens) == 0 ==>
                pendingOpens == 0 && position == old(position) && backgroundAlpha == old(backgroundAlpha)
    {
      if pendingOpens > 0 {
        Open();
        pendingOpens := pendingOpens - 1;
      }
    }

    /** `complete`: re-measure, close and request dismissal. */
    method Complete(sheetFrameHeight: real)
      modifies this`sheetHeight, this`position, this`backgroundAlpha, this`dismissRequested
      ensures Snapshot() == SheetModel.ClosedAndDismissed(old(Snapshot()).(sheetHeight := sheetFrameHeight))
      ensures sheetHeight == sheetFrameHeight && position == -sheetFrameHeight
      ensures backgroundAlpha == 0.0 && dismissRequested
    {
      sheetHeight := sheetFrameHeight;
      Close(true);
    }

    /** A tap on the background does what `complete` does. */
    method TapBackground(sheetFrameHeight: real)
      modifies this`sheetHeight, this`position, this`backgroundAlpha, this`dismissRequested
      ensures sheetHeight == sheetFrameHeight && position == -sheetFrameHeight
      ensures backgroundAlpha == 0.0 && dismissRequested
      ensures transition == old(transition)
    {
      Complete(sheetFrameHeight);
    }

    // -------------------------------------------------------------------
    // The pan gesture

    /** `.began`: refresh the cached height, nothing else. */
    method PanBegan(sheetFrameHeight: real)
      modifies this`sheetHeight
      ensures Snapshot() == SheetModel.Began(old(Snapshot()), sheetFrameHeight)
      ensures sheetHeight == sheetFrameHeight
    {
      sheetHeight := sheetFrameHeight;
    }

    /** `.changed`: damp the translation by the previous offset, snap out of the
        dead zone, move the sheet to the accumulator and reset the recognizer's
        translation. */
    method PanChanged(g: PanGestureRecognizer, safeAreaBottom: real)
      requires safeAreaBottom >= 0.0
      modifies this`transition, this`position, g`translation
      ensures Snapshot() == SheetModel.Changed(old(Snapshot()), old(g.translation), safeAreaBottom)
      ensures !(0.0 < transition < safeAreaBottom) && position == transition
      ensures g.translation == 0.0
    {
      var translation := g.translation;
      var factor := if position > 0.0 then SheetModel.OverContentTransitionFactor
                    else SheetModel.ContentTransitionFactor;
      transition := transition - translation * factor;
      if 0.0 <= transition < safeAreaBottom {
        if translation < 0.0 {
          transition := safeAreaBottom;
        } else {
          transition := 0.0;
        }
      }
      position := transition;
      g.translation := 0.0;
    }

    /** `.ended`: decide, open or close-and-dismiss, reset the accumulator and
        the recognizer's translation. */
    method PanEnded(g: PanGestureRecognizer) returns (d: SheetModel.Decision)
      modifies this`transition, this`position, this`backgroundAlpha, this`dismissRequested, g`translation
      ensures d == SheetModel.Decide(g.velocity, old(transition), sheetHeight)
      ensures Snapshot() == SheetModel.Ended(old(Snapshot()), g.velocity)
      ensures transition == 0.0 && g.translation == 0.0
    {
      var velocity := g.velocity;
      if velocity > SheetModel.ThresholdVelocityToClose
         || transition < -(sheetHeight * SheetModel.CloseFractionOfHeight) {
        Close(true);
        d := SheetModel.Close;
      } else {
        Open();
        d := SheetModel.Open;
      }
      transition := 0.0;
      g.translation := 0.0;
    }

    /** `didPan`: dispatch on the recognizer's phase; other phases change nothing. */
    method DidPan(g: PanGestureRecognizer, sheetFrameHeight: real, safeAreaBottom: real)
      returns (decision: Option<SheetModel.Decision>)
      requires safeAreaBottom >= 0.0
      modifies this`sheetHeight, this`transition, this`position, this`backgroundAlpha,
               this`dismissRequested, g`translation
      ensures g.state == Began ==>
                Snapshot() == SheetModel.Began(old(Snapshot()), sheetFrameHeight) && decision == None &&
                g.translation == old(g.translation)
      ensures g.state == Changed ==>
                Snapshot() == SheetModel.Changed(old(Snapshot()), old(g.translation), safeAreaBottom) &&
                decision == None && g.translation == 0.0
      ensures g.state == Ended ==>
                Snapshot() == SheetModel.Ended(old(Snapshot()), g.velocity) &&
                decision == Some(SheetModel.Decide(g.velocity, old(transition), old(sheetHeight))) &&
                g.translation == 0.0
      ensures g.state !in {Began, Changed, Ended} ==>
                Snapshot() == old(Snapshot()) && decision == None && g.translation == old(g.translation)
    {
      decision := None;
      match g.state {
        case Began =>
          PanBegan(sheetFrameHeight);
        case Changed =>
          PanChanged(g, safeAreaBottom);
        case Ended =>
          var d := PanEnded(g);
          decision := Some(d);
        case _ =>
      }
    }
  }
}
