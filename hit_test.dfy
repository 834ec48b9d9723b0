/** Non-client hit-testing: which part of the window a screen point is over,
    answered with the platform's HT* codes. */
module HitTest {
  import opened Captions
  import opened TitleBar
  import Geometry

  // The platform's hit-test codes (WM_NCHITTEST results).
  const HTNOWHERE: int := 0
  const HTCLIENT: int := 1
  const HTCAPTION: int := 2
  const HTMINBUTTON: int := 8
  const HTMAXBUTTON: int := 9
  const HTLEFT: int := 10
  const HTRIGHT: int := 11
  const HTTOP: int := 12
  const HTTOPLEFT: int := 13
  const HTTOPRIGHT: int := 14
  const HTBOTTOM: int := 15
  const HTBOTTOMLEFT: int := 16
  const HTBOTTOMRIGHT: int := 17
  const HTCLOSE: int := 20
  const HTHELP: int := 21

  /** ncHitZone: indexed by horizontal zone (left border, interior, right
      border) then vertical zone (top border, title bar, middle, bottom border). */
  const NC_HIT_ZONE: seq<seq<int>> := [
    [HTTOPLEFT, HTLEFT, HTLEFT, HTBOTTOMLEFT],
    [HTTOP, HTCAPTION, HTNOWHERE, HTBOTTOM],
    [HTTOPRIGHT, HTRIGHT, HTRIGHT, HTBOTTOMRIGHT]
  ]

  /** The codes the zone table can give. */
  predicate IsZoneCode(r: int) {
    r in {HTTOPLEFT, HTLEFT, HTBOTTOMLEFT, HTTOP, HTCAPTION, HTNOWHERE, HTBOTTOM,
          HTTOPRIGHT, HTRIGHT, HTBOTTOMRIGHT}
  }

  function HitZone(x: nat, y: nat): (r: int)
    requires x < 3 && y < 4
    ensures IsZoneCode(r)
  {
    NC_HIT_ZONE[x][y]
  }

  /** A screen point (the message's coordinates). */
  datatype Point = Point(x: int, y: int)

  /** The window's rectangle in screen coordinates (GetWindowRect); right and
      bottom are one past the window. */
  datatype WinRect = WinRect(left: int, top: int, right: int, bottom: int)

  /** The horizontal zone: the left border band includes the window's left edge
      and stops before left + border; the right band likewise stops before the
      right edge. Everything else, outside the window too, is the interior. */
  function XZone(cx: int, win: WinRect, border: int): (x: nat)
    ensures x < 3
    ensures x == 0 <==> win.left <= cx < win.left + border
    // The left band is tested first, so where the side bands overlap it wins.
    ensures x == 2 <==> !(win.left <= cx < win.left + border) && win.right - border <= cx < win.right
  {
    if win.left <= cx < win.left + border then 0
    else if win.right - border <= cx < win.right then 2
    else 1
  }

  /** The vertical zone: the top band runs from the top edge to top + border
      inclusive, the title band from top + border to top + border + title bar
      inclusive, the bottom band from bottom - border to before bottom. The top
      and title bands are tested first; everything else is the middle. */
  function YZone(cy: int, win: WinRect, border: int, titleBar: int): (y: nat)
    ensures y < 4
    ensures y == 0 <==> win.top <= cy <= win.top + border
    // The row top + border belongs to the top band, so the title band starts below it.
    ensures border >= 0 ==> (y == 1 <==> win.top + border < cy <= win.top + border + titleBar)
    ensures y == 3 ==> win.bottom - border <= cy < win.bottom
    // Below the title band, the bottom band is the bottom border.
    ensures border >= 0 && titleBar >= 0 && win.top + border + titleBar < cy ==>
              (y == 3 <==> win.bottom - border <= cy < win.bottom)
  {
    if win.top <= cy <= win.top + border then 0
    else if win.top + border <= cy <= win.top + border + titleBar then 1
    else if win.bottom - border <= cy < win.bottom then 3
    else 2
  }

  /** hasControls: the point is over one of the four title-bar buttons, or over
      a child widget other than the window itself. */
  function HasControls(buttons: ButtonHits, foreignChild: bool): (r: bool)
    // Over the button rectangles it is exactly where a title-bar move would
    // hover a button, maximized or not; the restore rectangle and foreign
    // children count too.
    ensures !foreignChild && !buttons.normal ==>
              (r <==> ResolveControl(buttons, false) != NoControl)
              && (r <==> ResolveControl(buttons, true) != NoControl)
    ensures foreignChild || buttons.normal ==> r
  {
    buttons.close || buttons.max || buttons.min || buttons.normal || foreignChild
  }

  /** ncHitTest. `border` and `titleBar` are the resolved sizes; `buttons` and
      `foreignChild` are what the style and the platform say about the point,
      and the caption boxes are tested with window-relative coordinates. Over a
      control or a foreign child the answer is caption or client, by the
      caption registry alone; elsewhere it is the zone table's entry. */
  function NcHitTest(cur: Point, win: WinRect, border: int, titleBar: int, buttons: ButtonHits,
                     foreignChild: bool, captions: seq<WidgetId>, boxOf: WidgetId -> Box): (r: int)
    ensures HasControls(buttons, foreignChild) ==>
      (r == HTCAPTION || r == HTCLIENT)
      && (r == HTCAPTION <==> exists i :: 0 <= i < |captions|
                                 && BoxContains(boxOf(captions[i]), cur.x - win.left, cur.y - win.top))
    ensures !HasControls(buttons, foreignChild) ==>
      r == HitZone(XZone(cur.x, win, border), YZone(cur.y, win, border, titleBar))
    ensures r != HTCLOSE && r != HTMAXBUTTON && r != HTMINBUTTON && r != HTHELP
  {
    if HasControls(buttons, foreignChild) then
      if IsCaption(captions, boxOf, cur.x - win.left, cur.y - win.top) then HTCAPTION else HTCLIENT
    else
      HitZone(XZone(cur.x, win, border), YZone(cur.y, win, border, titleBar))
  }

  const NO_BUTTONS := ButtonHits(false, false, false, false)

  /** Corner priority: a point in both the left band and the top band is the
      top-left corner, never the top or left edge. */
  lemma TopLeftCorner(cur: Point, win: WinRect, border: int, titleBar: int,
                      captions: seq<WidgetId>, boxOf: WidgetId -> Box)
    requires win.left <= cur.x < win.left + border
    requires win.top <= cur.y <= win.top + border
    ensures NcHitTest(cur, win, border, titleBar, NO_BUTTONS, false, captions, boxOf) == HTTOPLEFT
  {
  }

  /** The other corners: the right band with the top band, and either side band
      with the bottom band below the title bar. */
  lemma OtherCorners(cur: Point, win: WinRect, border: int, titleBar: int,
                     captions: seq<WidgetId>, boxOf: WidgetId -> Box)
    requires border >= 0 && titleBar >= 0
    ensures (!(win.left <= cur.x < win.left + border) && win.right - border <= cur.x < win.right
             && win.top <= cur.y <= win.top + border)
            ==> NcHitTest(cur, win, border, titleBar, NO_BUTTONS, false, captions, boxOf) == HTTOPRIGHT
    ensures (win.left <= cur.x < win.left + border && win.top + border + titleBar < cur.y
             && win.bottom - border <= cur.y < win.bottom)
            ==> NcHitTest(cur, win, border, titleBar, NO_BUTTONS, false, captions, boxOf) == HTBOTTOMLEFT
    ensures (!(win.left <= cur.x < win.left + border) && win.right - border <= cur.x < win.right
             && win.top + border + titleBar < cur.y && win.bottom - border <= cur.y < win.bottom)
            ==> NcHitTest(cur, win, border, titleBar, NO_BUTTONS, false, captions, boxOf) == HTBOTTOMRIGHT
  {
  }

  /** Between the side bands, the title band below the top border is caption
      and the band under it, above the bottom border, is nowhere. */
  lemma InteriorBands(cur: Point, win: WinRect, border: int, titleBar: int,
                      captions: seq<WidgetId>, boxOf: WidgetId -> Box)
    requires !(win.left <= cur.x < win.left + border) && !(win.right - border <= cur.x < win.right)
    ensures win.top + border < cur.y <= win.top + border + titleBar
            ==> NcHitTest(cur, win, border, titleBar, NO_BUTTONS, false, captions, boxOf) == HTCAPTION
    ensures (win.top + border + titleBar < cur.y && !(win.top <= cur.y <= win.top + border)
             && !(win.bottom - border <= cur.y < win.bottom))
            ==> NcHitTest(cur, win, border, titleBar, NO_BUTTONS, false, captions, boxOf) == HTNOWHERE
  {
  }

  /** The top band wins over the bottom band where a short window makes them
      overlap: a point in both is on the top edge. */
  lemma TopBeforeBottom(cur: Point, win: WinRect, border: int, titleBar: int,
                        captions: seq<WidgetId>, boxOf: WidgetId -> Box)
    requires !(win.left <= cur.x < win.left + border) && !(win.right - border <= cur.x < win.right)
    requires win.top <= cur.y <= win.top + border && win.bottom - border <= cur.y < win.bottom
    ensures NcHitTest(cur, win, border, titleBar, NO_BUTTONS, false, captions, boxOf) == HTTOP
  {
  }

  /** Over a button or a foreign child, the zones are never consulted: the
      answer does not depend on the border, the title bar or the window's far
      edges, only on where the point lies relative to the window's origin. */
  lemma ControlsBeforeZones(cur: Point, win: WinRect, border: int, titleBar: int, buttons: ButtonHits,
                            foreignChild: bool, captions: seq<WidgetId>, boxOf: WidgetId -> Box,
                            win': WinRect, border': int, titleBar': int)
    requires HasControls(buttons, foreignChild)
    requires win'.left == win.left && win'.top == win.top
    ensures NcHitTest(cur, win, border, titleBar, buttons, foreignChild, captions, boxOf)
         == NcHitTest(cur, win', border', titleBar', buttons, foreignChild, captions, boxOf)
  {
  }

  /** The client rectangle of a window with its frame removed (no margins,
      every part in play) hit-tests as nowhere, except its top row, which the
      title band's inclusive lower edge makes caption. */
  lemma ClientAreaHitTest(cur: Point, win: WinRect, border: int, titleBar: int,
                          captions: seq<WidgetId>, boxOf: WidgetId -> Box)
    requires border >= 0 && titleBar > 0
    requires var c := Geometry.ClientGeometry(win.right - win.left, win.bottom - win.top, false,
                                              Geometry.ALL_PARTS, Geometry.NO_MARGINS, true, border, titleBar);
      c.left <= cur.x - win.left < c.left + c.width && c.top <= cur.y - win.top < c.top + c.height
    ensures NcHitTest(cur, win, border, titleBar, NO_BUTTONS, false, captions, boxOf)
         == if cur.y - win.top == border + titleBar then HTCAPTION else HTNOWHERE
  {
  }

  /** An 800 x 600 window at the origin with border 4 and title bar 30. */
  lemma HitTestExample(captions: seq<WidgetId>, boxOf: WidgetId -> Box)
    ensures var win := WinRect(0, 0, 800, 600);
      && NcHitTest(Point(2, 2), win, 4, 30, NO_BUTTONS, false, captions, boxOf) == HTTOPLEFT
      && NcHitTest(Point(400, 2), win, 4, 30, NO_BUTTONS, false, captions, boxOf) == HTTOP
      && NcHitTest(Point(400, 20), win, 4, 30, NO_BUTTONS, false, captions, boxOf) == HTCAPTION
      && NcHitTest(Point(400, 300), win, 4, 30, NO_BUTTONS, false, captions, boxOf) == HTNOWHERE
  {
  }
}
