/**
 * The page as one object: the application root and the three components
 * that react to its state, wired as the root's JSX wires them — the mode and
 * the trail flag go down as props, the terminal calls `activateZenithMode`,
 * and the carousel's portal drop sets the active project.
 */
module Site {
  import opened Wrappers
  import App
  import Terminal
  import Carousel
  import Cursor
  import Text

  class Page {
    const app: App.ZenithApp
    const terminal: Terminal.TerminalFooter
    const carousel: Carousel.ProjectCarousel
    const cursor: Cursor.CustomCursor

    predicate Valid()
      reads this, app, carousel, cursor
    {
      app.Valid() && carousel.Valid() && cursor.Valid()
    }

    constructor (body0: set<string>, accent0: string, glow0: string)
      ensures Valid()
      ensures app.Snapshot() == App.State(0, false, None, false, false, body0, accent0, glow0, 0, [])
      ensures terminal.history == Terminal.InitialHistory && terminal.input == ""
      ensures carousel.index == 0 && carousel.dragX == 0.0
      ensures cursor.cursorX == -100 && cursor.cursorY == -100 && cursor.trail == [] && cursor.counter == 0
      ensures !cursor.hovered && !cursor.clicked
    {
      app := new App.ZenithApp(body0, accent0, glow0);
      terminal := new Terminal.TerminalFooter();
      carousel := new Carousel.ProjectCarousel();
      cursor := new Cursor.CustomCursor();
    }

    /** The terminal's `isZeroGravity` effect runs when the mode changed since `before`. */
    method SyncTerminal(before: bool)
      modifies terminal
      ensures terminal.history == if app.isZeroGravity != before
        then Terminal.ZeroGravityEffect(old(terminal.history), app.isZeroGravity)
        else old(terminal.history)
      ensures terminal.input == old(terminal.input)
    {
      if app.isZeroGravity != before {
        terminal.ZeroGravityChanged(app.isZeroGravity);
      }
    }

    method KeyDown(key: string)
      requires Valid()
      modifies app, terminal
      ensures Valid()
      ensures app.Snapshot() == App.KeyStep(old(app.Snapshot()), key)
      ensures terminal.history == old(terminal.history) && terminal.input == old(terminal.input)
    {
      var before := app.isZeroGravity;
      app.KeyDown(key);
      SyncTerminal(before);
    }

    /** A pending timer fires; the flip into zero-gravity makes the terminal print its warnings. */
    method FireTimer(i: nat)
      requires Valid() && i < |app.pending|
      modifies app, terminal
      ensures Valid()
      ensures app.Snapshot() == App.TimerStep(old(app.Snapshot()), i)
      ensures terminal.history == if !old(app.isZeroGravity) && app.isZeroGravity
        then old(terminal.history) + Terminal.Warnings
        else old(terminal.history)
      ensures terminal.input == old(terminal.input)
    {
      var before := app.isZeroGravity;
      app.FireTimer(i);
      SyncTerminal(before);
    }

    /** The input's `onChange`; the input is disabled in zero-gravity. */
    method TypeInTerminal(text: string)
      requires !app.isZeroGravity
      modifies terminal
      ensures terminal.input == text && terminal.history == old(terminal.history)
    {
      terminal.Type(text);
    }

    /** Submitting `zenith 1` runs the same activation as the last key of the sequence, once. */
    method SubmitTerminal()
      requires Valid()
      modifies app, terminal
      ensures Valid()
      ensures var r := Terminal.SubmitStep(old(terminal.history), old(terminal.input), old(app.isZeroGravity));
        && terminal.history == r.history && terminal.input == r.input
        && app.Snapshot() == if r.triggered then App.ActivateStep(old(app.Snapshot())) else old(app.Snapshot())
    {
      var triggered := terminal.Submit(app.isZeroGravity);
      if triggered {
        app.Activate();
      }
    }

    method DragCarousel(x: real)
      requires Valid() && !app.isZeroGravity
      modifies carousel
      ensures Valid() && carousel.dragX == x && carousel.index == old(carousel.index)
    {
      carousel.Drag(x);
    }

    /** The end of a card drag; in zero-gravity a drop on the portal opens the card. */
    method DragCarouselEnd(inPortal: bool, card: int)
      requires Valid()
      requires 0 <= card < |Carousel.Projects| && Carousel.Rendered(card, carousel.index, |Carousel.Projects|)
      requires !app.isZeroGravity ==> card == carousel.index
      modifies carousel, app
      ensures Valid()
      ensures app.isZeroGravity && inPortal ==>
        app.Snapshot() == old(app.Snapshot()).(activeProject := Some(Carousel.Projects[card]))
      ensures !(app.isZeroGravity && inPortal) ==> app.Snapshot() == old(app.Snapshot())
      ensures app.isZeroGravity ==> carousel.index == old(carousel.index)
      ensures !app.isZeroGravity ==>
        carousel.index == Carousel.DragTarget(old(carousel.index), old(carousel.dragX), |Carousel.Projects|)
      ensures carousel.dragX == if app.isZeroGravity then old(carousel.dragX) else 0.0
    {
      var dropped := carousel.DragEnd(app.isZeroGravity, inPortal, card);
      if dropped.Some? {
        app.SetActiveProject(dropped);
      }
    }

    /** The project overlay's CLOSE_PORTAL button. */
    method CloseProject()
      requires Valid()
      modifies app
      ensures Valid() && app.Snapshot() == old(app.Snapshot()).(activeProject := None)
    {
      app.SetActiveProject(None);
    }

    /** Pointer events go to the cursor, which reads the root's trail flag. */
    method MouseMove(x: int, y: int)
      requires Valid()
      modifies cursor
      ensures Valid() && cursor.cursorX == x && cursor.cursorY == y
      ensures cursor.trail == if app.isTrailActive
        then Cursor.Pushed(old(cursor.trail), Cursor.Point(x, y, old(cursor.counter)))
        else old(cursor.trail)
      ensures cursor.counter == if app.isTrailActive then old(cursor.counter) + 1 else old(cursor.counter)
      ensures cursor.hovered == old(cursor.hovered) && cursor.clicked == old(cursor.clicked)
    {
      cursor.MouseMove(x, y, app.isTrailActive);
    }
  }

  /**
   * Typing `zenith 1` into the terminal also reaches the window's key handler,
   * which ignores the space and activates at the `1` (letter case does not
   * matter, see `App.RunCaseInsensitive`). Submitting within the 800 ms window,
   * while the terminal is still unlocked, activates a second time, so two
   * flips are queued; the terminal prints its three lines.
   */
  lemma TypedZenithQueuesTwoFlips(s: App.State, history: seq<string>, typed: string)
    requires s.level == 0 && !s.isZeroGravity && typed == "zenith 1"
    ensures var r := App.Run(s, App.ZenithKeys + [" ", "1"]);
      && !r.isZeroGravity
      && Terminal.SubmitStep(history, typed, r.isZeroGravity).triggered
      && App.ActivateStep(r).pending
        == s.pending + [App.GlitchOff, App.FlashOff, App.MatrixOff] + [App.ZenithFlip(false)] + [App.ZenithFlip(false)]
  {
    App.ZenithPrefix(s, App.ZenithKeys);
    var m := App.Run(s, App.ZenithKeys);
    assert m.pending == s.pending + [App.GlitchOff, App.FlashOff, App.MatrixOff] && !m.isZeroGravity;
    App.RunAppend(s, App.ZenithKeys, [" ", "1"]);
    SpaceThenOneActivates(m, " ", "1");
    Terminal.ZenithCommand(history);
  }

  /** At the last symbol an ignored space changes nothing and the `1` activates. */
  lemma SpaceThenOneActivates(m: App.State, space: string, one: string)
    requires m.level == |App.Target| - 1 && space == " " && one == "1"
    ensures App.Run(m, [space, one]) == App.ActivateStep(m)
  {
    App.RunCons(m, space, [one]);
    assert [space] + [one] == [space, one];
    assert Text.Upper(space) == space;
    assert App.KeyStep(m, space) == m;
    App.RunCons(m, one, []);
    assert [one] + [] == [one];
    App.LastSymbolActivates(m);
  }
}
