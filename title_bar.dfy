/** The hover/press state machine of the title-bar buttons that the window
    draws itself once the native frame is removed. Each mouse event is a
    step from the current (hover, state) pair to the next, with whether a
    repaint is requested and which window action, if any, is performed. */
module TitleBar {

  /** mTitleBarHover: the title-bar sub-control under the mouse. */
  datatype SubControl = NoControl | CloseButton | MaxButton | MinButton | NormalButton

  /** mTitleBarState: the visual phase of the hovered button. */
  datatype ButtonState = StateNone | MouseOver | Sunken

  /** What a release over a button makes the window do. */
  datatype WindowAction = NoAction | Close | ShowMaximized | ShowMinimized | ShowNormal

  datatype Chrome = Chrome(hover: SubControl, state: ButtonState)

  const IDLE := Chrome(NoControl, StateNone)

  /** The result of one mouse event. */
  datatype Step = Step(next: Chrome, repaint: bool, action: WindowAction)

  /** Whether the point lies in the style's close, maximize, minimize and
      restore sub-control rectangles (subControlRect(...).contains(cx, cy)). */
  datatype ButtonHits = ButtonHits(close: bool, max: bool, min: bool, normal: bool)

  /** A button is hovered exactly when a visual phase is shown. Every step
      keeps this. */
  predicate Consistent(c: Chrome) {
    c.hover == NoControl <==> c.state == StateNone
  }

  /** The control under the mouse, tested in the source's order: close, the
      maximize rectangle when not maximized, minimize, then the same maximize
      rectangle as the restore button when maximized. The restore rectangle of
      the style is never consulted. */
  function ResolveControl(hits: ButtonHits, maximized: bool): (r: SubControl)
    ensures r == CloseButton <==> hits.close
    ensures r == MaxButton <==> !hits.close && hits.max && !maximized
    ensures r == MinButton <==> !hits.close && !(hits.max && !maximized) && hits.min
    ensures r == NormalButton <==> !hits.close && !hits.min && hits.max && maximized
    ensures r == NoControl <==> !hits.close && !hits.max && !hits.min
  {
    if hits.close then CloseButton
    else if hits.max && !maximized then MaxButton
    else if hits.min then MinButton
    else if hits.max && maximized then NormalButton
    else NoControl
  }

  /** ncMouseMove. With the native frame kept, or under composition, the
      platform owns the buttons and the machine is forced idle without a
      repaint. Otherwise a move over a different control than the hovered one
      switches to it (MouseOver, or idle over no control) and repaints; a move
      over the hovered control changes nothing. */
  function Move(c: Chrome, frameRemoved: bool, aero: bool, hits: ButtonHits, maximized: bool): (r: Step)
    ensures r.action == NoAction
    ensures Consistent(c) ==> Consistent(r.next)
    ensures !frameRemoved || aero ==> r == Step(IDLE, false, NoAction)
    ensures frameRemoved && !aero ==> r.next.hover == ResolveControl(hits, maximized)
    ensures frameRemoved && !aero ==> (r.repaint <==> c.hover != ResolveControl(hits, maximized))
    ensures frameRemoved && !aero && c.hover == ResolveControl(hits, maximized) ==> r.next == c
    ensures frameRemoved && !aero && c.hover != ResolveControl(hits, maximized) ==>
              r.next.state == (if ResolveControl(hits, maximized) == NoControl then StateNone else MouseOver)
  {
    if !frameRemoved || aero then Step(IDLE, false, NoAction)
    else
      var target := ResolveControl(hits, maximized);
      if target == c.hover then Step(c, false, NoAction)
      else if target == NoControl then Step(IDLE, true, NoAction)
      else Step(Chrome(target, MouseOver), true, NoAction)
  }

  /** ncMousePress: over a button it is shown sunken and repainted; elsewhere
      nothing happens. The press position is not looked at. */
  function Press(c: Chrome): (r: Step)
    ensures r.action == NoAction
    ensures r.next.hover == c.hover
    ensures c.hover != NoControl ==> r.next.state == Sunken && r.repaint
    ensures c.hover == NoControl ==> r == Step(c, false, NoAction)
  {
    if c.hover != NoControl then Step(Chrome(c.hover, Sunken), true, NoAction)
    else Step(c, false, NoAction)
  }

  /** The action bound to a button. */
  function ActionOf(sc: SubControl): (a: WindowAction)
    ensures a == NoAction <==> sc == NoControl
    ensures a == Close <==> sc == CloseButton
    ensures a == ShowMaximized <==> sc == MaxButton
    ensures a == ShowMinimized <==> sc == MinButton
    ensures a == ShowNormal <==> sc == NormalButton
  {
    match sc
    case NoControl => NoAction
    case CloseButton => Close
    case MaxButton => ShowMaximized
    case MinButton => ShowMinimized
    case NormalButton => ShowNormal
  }

  /** ncMouseRelease: only a sunken button reacts. It goes back to MouseOver,
      is repainted, and then its action is performed. */
  function Release(c: Chrome): (r: Step)
    ensures r.next.hover == c.hover
    ensures c.state != Sunken ==> r == Step(c, false, NoAction)
    ensures c.state == Sunken ==> r.next.state == MouseOver && r.repaint && r.action == ActionOf(c.hover)
  {
    if c.state == Sunken then Step(Chrome(c.hover, MouseOver), true, ActionOf(c.hover))
    else Step(c, false, NoAction)
  }

  /** Every step keeps the hover and the phase in agreement. */
  lemma StepsKeepConsistent(c: Chrome, frameRemoved: bool, aero: bool, hits: ButtonHits, maximized: bool)
    requires Consistent(c)
    ensures Consistent(Move(c, frameRemoved, aero, hits, maximized).next)
    ensures Consistent(Press(c).next)
    ensures Consistent(Release(c).next)
  {
  }

  /** A consistent release performs an action exactly when the button was sunken. */
  lemma ReleaseActsOnlyWhenSunken(c: Chrome)
    requires Consistent(c)
    ensures Release(c).action != NoAction <==> c.state == Sunken
  {
  }

  /** A second move with the same inputs changes nothing and does not repaint. */
  lemma MoveIdempotent(c: Chrome, frameRemoved: bool, aero: bool, hits: ButtonHits, maximized: bool)
    ensures var s := Move(c, frameRemoved, aero, hits, maximized);
            Move(s.next, frameRemoved, aero, hits, maximized) == Step(s.next, false, NoAction)
  {
  }

  /** A move that lands on the button already pressed keeps it sunken. */
  lemma MoveKeepsSunken(c: Chrome, hits: ButtonHits, maximized: bool)
    requires c.state == Sunken && ResolveControl(hits, maximized) == c.hover
    ensures Move(c, true, false, hits, maximized).next.state == Sunken
  {
  }

  /** The machine after `n` moves with the same inputs, and how many of them
      requested a repaint. */
  function Moves(c: Chrome, n: nat, frameRemoved: bool, aero: bool, hits: ButtonHits,
                 maximized: bool): (Chrome, nat)
    decreases n
  {
    if n == 0 then (c, 0)
    else
      var s := Move(c, frameRemoved, aero, hits, maximized);
      var (last, count) := Moves(s.next, n - 1, frameRemoved, aero, hits, maximized);
      (last, count + (if s.repaint then 1 else 0))
  }

  /** Repeated moves onto the same control give one transition and at most one
      repaint: exactly one when the first move changed the hovered control. */
  lemma {:induction false} RepeatedMovesRepaintOnce(c: Chrome, n: nat, frameRemoved: bool, aero: bool,
                                                    hits: ButtonHits, maximized: bool)
    requires n >= 1
    ensures var s := Move(c, frameRemoved, aero, hits, maximized);
            Moves(c, n, frameRemoved, aero, hits, maximized) == (s.next, if s.repaint then 1 else 0)
    decreases n
  {
    var s := Move(c, frameRemoved, aero, hits, maximized);
    MovesAtRest(s.next, n - 1, frameRemoved, aero, hits, maximized);
  }

  /** Moves from a state that a move with the same inputs already reached do nothing. */
  lemma {:induction false} MovesAtRest(c: Chrome, n: nat, frameRemoved: bool, aero: bool,
                                       hits: ButtonHits, maximized: bool)
    requires Move(c, frameRemoved, aero, hits, maximized) == Step(c, false, NoAction)
    ensures Moves(c, n, frameRemoved, aero, hits, maximized) == (c, 0)
    decreases n
  {
    if n > 0 {
      MovesAtRest(c, n - 1, frameRemoved, aero, hits, maximized);
    }
  }

  /** Hover over the maximize rectangle of a maximized window, press and
      release: the window is restored, not maximized again. */
  lemma MaximizedWindowRestores(c: Chrome)
    ensures var hits := ButtonHits(false, true, false, false);
            var over := Move(c, true, false, hits, true).next;
            over.hover == NormalButton && Release(Press(over).next).action == ShowNormal
  {
  }

  /** From any consistent state, a press followed by a release performs the
      hovered button's action once, and ends over the button. */
  lemma PressReleaseActs(c: Chrome)
    requires Consistent(c)
    ensures var r := Release(Press(c).next);
            r.action == ActionOf(c.hover) && r.next.hover == c.hover
            && (c.hover != NoControl ==> r.next.state == MouseOver)
  {
  }
}
