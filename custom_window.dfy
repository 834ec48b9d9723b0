/** The window itself: the fields the source updates in place, the setters
    that change them, the caption registry, the title-bar button state machine
    and the handling of native messages. Repaints, window actions, the calls
    that push margins to the compositor and the layout, and the signals are
    appended to an event log instead of being performed. */
module Window {
  import opened Geometry
  import opened Captions
  import opened TitleBar
  import opened HitTest
  import opened NativeEvent

  /** What the window asks of the toolkit and the platform. */
  datatype Event =
    | Repaint
    | Perform(action: WindowAction)
    | FrameChanged                      // updateFrame: SetWindowPos with SWP_FRAMECHANGED
    | FrameExtended(extension: Margins) // updateMargins: DwmExtendFrameIntoClientArea
    | LayoutMarginsSet(contents: Margins)
    | CompositionChangedSignal
    | ThemeChangedSignal
    | MouseTracking(enabled: bool)

  /** What the platform and the style answer while one call is handled. */
  datatype Platform = Platform(
    aero: bool,               // isAeroActivated()
    themeActive: bool,        // isThemeActivated()
    metrics: Metrics,         // the style's pixel metrics
    maximized: bool,          // isMaximized()
    windowRect: WinRect,      // GetWindowRect, in screen coordinates
    dwm: DwmAnswer,           // DwmDefWindowProc's answer to the message
    controlHits: ButtonHits,  // the point against hasControls' button rectangles
    foreignChild: bool,       // widgetAt(point) is a widget other than the window
    titleBarHits: ButtonHits, // the point against ncMouseMove's button rectangles
    boxOf: WidgetId -> Box)   // each caption widget's window-relative box

  /** A native message: its code, its wParam and the screen point of its lParam. */
  datatype NativeMessage = NativeMessage(message: int, wParam: int, point: Point)

  /** The events one button step produces: the repaint first, then the action. */
  function StepEvents(s: Step): (e: seq<Event>)
    ensures Repaint in e <==> s.repaint
    ensures s.repaint ==> e[0] == Repaint
    ensures s.action != NoAction ==> |e| > 0 && e[|e| - 1] == Perform(s.action)
    ensures forall a :: Perform(a) in e ==> a == s.action && a != NoAction
    ensures |e| == (if s.repaint then 1 else 0) + (if s.action != NoAction then 1 else 0)
  {
    (if s.repaint then [Repaint] else []) + (if s.action != NoAction then [Perform(s.action)] else [])
  }

  class CustomWindow {
    var width: int
    var height: int
    var frameRemoved: bool
    var margins: Margins
    var borderSetting: int     // mBorderSize: -1 means the platform's
    var titleBarSetting: int   // mTitleBarSize: -1 means the platform's
    var sizing: Sizing
    var geometryFlags: GeometryFlags
    var hasLayout: bool
    var layoutMargins: Margins // the layout's own margins, taken at setLayout
    var captions: seq<WidgetId>
    var titleBarHover: SubControl
    var titleBarState: ButtonState
    var events: seq<Event>

    ghost predicate Valid()
      reads this
    {
      && borderSetting >= -1
      && titleBarSetting >= -1
      && sizing != DefaultSizing
      && Consistent(Chrome(titleBarHover, titleBarState))
    }

    /** A window of the given size; both sizes are left to the platform, except
        that on Windows 10 the border is one pixel. The geometry flags are
        declared in the header, which is not part of this model. */
    constructor (w: int, h: int, flags: GeometryFlags, windows10: bool)
      ensures Valid()
      ensures width == w && height == h && geometryFlags == flags
      ensures !frameRemoved && margins == NO_MARGINS && !hasLayout
      ensures titleBarSetting == -1 && borderSetting == (if windows10 then 1 else -1)
      ensures titleBarHover == NoControl && titleBarState == StateNone
      ensures sizing == ContentSizing && captions == [] && events == []
    {
      width, height := w, h;
      geometryFlags := flags;
      frameRemoved := false;
      margins := NO_MARGINS;
      hasLayout := false;
      layoutMargins := NO_MARGINS;
      titleBarSetting := NormalizedSize(-1);
      borderSetting := NormalizedSize(-1);
      titleBarHover, titleBarState := NoControl, StateNone;
      sizing := ContentSizing;
      captions := [];
      events := [];
      if windows10 {
        borderSetting := NormalizedSize(1);
      }
    }

    /** borderSize() */
    function BorderSize(m: Metrics): int
      reads this
    {
      Geometry.BorderSize(borderSetting, m)
    }

    /** titleBarSize() */
    function TitleBarSize(m: Metrics): int
      reads this
    {
      Geometry.TitleBarSize(titleBarSetting, m)
    }

    /** clientGeometry(), with the stored geometry flags. */
    function ClientGeometry(p: Platform): Rect
      reads this
    {
      Geometry.ClientGeometry(width, height, p.aero, geometryFlags, margins, frameRemoved,
                              BorderSize(p.metrics), TitleBarSize(p.metrics))
    }

    /** size(mode) */
    function Size(mode: Sizing): Extent
      reads this
    {
      ContentSize(Extent(width, height), mode, sizing, borderSetting)
    }

    /** ncHitTest for a message's point. */
    function HitTestAt(point: Point, p: Platform): int
      reads this
    {
      NcHitTest(point, p.windowRect, BorderSize(p.metrics), TitleBarSize(p.metrics),
                p.controlHits, p.foreignChild, captions, p.boxOf)
    }

    /** What updateMargins pushes to the compositor. */
    function MarginsEvent(p: Platform): Event
      reads this
    {
      FrameExtended(FrameExtension(margins, frameRemoved, BorderSize(p.metrics), TitleBarSize(p.metrics)))
    }

    /** What updateLayoutMargins sets, when there is a layout. */
    function LayoutEvents(p: Platform): seq<Event>
      reads this
    {
      if hasLayout then [LayoutMarginsSet(LayoutContentsMargins(width, height, ClientGeometry(p), layoutMargins))]
      else []
    }

    /** updateFrame, updateMargins and updateLayoutMargins, in that order. */
    function FrameUpdateEvents(p: Platform): seq<Event>
      reads this
    {
      [FrameChanged, MarginsEvent(p)] + LayoutEvents(p)
    }

    /** declareCaption: the widget is appended to the registry. */
    method DeclareCaption(w: WidgetId)
      modifies this`captions
      ensures captions == old(captions) + [w]
    {
      captions := captions + [w];
    }

    /** removeCaption: erase matching entries while walking the registry with an
        index that advances after every comparison, erase or not. */
    method RemoveCaption(w: WidgetId)
      modifies this`captions
      ensures captions == RemovedAsWritten(old(captions), w)
      ensures Without(captions, w) == Without(old(captions), w)
    {
      ghost var original := captions;
      var i := 0;
      while i < |captions|
        invariant 0 <= i <= |captions| + 1
        invariant RemovalFrom(captions, i, w) == RemovedAsWritten(original, w)
        decreases |captions| + 1 - i
      {
        if captions[i] == w {
          EraseStep(captions, i, w);
          captions := captions[..i] + captions[i + 1..];
        } else {
          SkipStep(captions, i, w);
        }
        i := i + 1;
      }
      if i <= |captions| {
        assert captions[i..] == [] && captions[..i] == captions;
      }
      RemovedAsWrittenKeepsOthers(original, w);
    }

    /** updateMargins */
    method UpdateMargins(p: Platform)
      modifies this`events
      ensures events == old(events) + [MarginsEvent(p)]
    {
      events := events + [MarginsEvent(p)];
    }

    /** updateLayoutMargins: nothing without a layout. */
    method UpdateLayoutMargins(p: Platform)
      modifies this`events
      ensures events == old(events) + LayoutEvents(p)
    {
      if hasLayout {
        var client := ClientGeometry(p);
        events := events + [LayoutMarginsSet(LayoutContentsMargins(width, height, client, layoutMargins))];
      }
    }

    /** setBorderSize: a negative size is stored as -1; with the frame removed,
        the frame, compositor margins and layout margins are then updated. */
    method SetBorderSize(size: int, p: Platform)
      requires Valid()
      modifies this`borderSetting, this`events
      ensures Valid()
      ensures borderSetting == NormalizedSize(size)
      ensures BorderSize(p.metrics) == if size < 0 then p.metrics.mdiFrameWidth else size
      ensures events == old(events) + (if frameRemoved then FrameUpdateEvents(p) else [])
    {
      borderSetting := NormalizedSize(size);
      if frameRemoved {
        events := events + [FrameChanged];
        UpdateMargins(p);
        UpdateLayoutMargins(p);
      }
    }

    /** setTitleBarSize: as setBorderSize, for the title bar. */
    method SetTitleBarSize(size: int, p: Platform)
      requires Valid()
      modifies this`titleBarSetting, this`events
      ensures Valid()
      ensures titleBarSetting == NormalizedSize(size)
      ensures TitleBarSize(p.metrics)
           == if size < 0 then p.metrics.titleBarHeight - p.metrics.subWindowFrameWidth else size
      ensures events == old(events) + (if frameRemoved then FrameUpdateEvents(p) else [])
    {
      titleBarSetting := NormalizedSize(size);
      if frameRemoved {
        events := events + [FrameChanged];
        UpdateMargins(p);
        UpdateLayoutMargins(p);
      }
    }

    /** setExtraMargins: store, then update the compositor and layout margins. */
    method SetExtraMargins(m: Margins, p: Platform)
      requires Valid()
      modifies this`margins, this`events
      ensures Valid() && margins == m
      ensures events == old(events) + [MarginsEvent(p)] + LayoutEvents(p)
    {
      margins := m;
      UpdateMargins(p);
      UpdateLayoutMargins(p);
    }

    /** setFrameRemoved: store, update frame and margins, and track the mouse
        exactly while the frame is removed. */
    method SetFrameRemoved(removed: bool, p: Platform)
      requires Valid()
      modifies this`frameRemoved, this`events
      ensures Valid() && frameRemoved == removed
      ensures events == old(events) + FrameUpdateEvents(p) + [MouseTracking(removed)]
    {
      frameRemoved := removed;
      events := events + [FrameChanged];
      UpdateMargins(p);
      UpdateLayoutMargins(p);
      events := events + [MouseTracking(removed)];
    }

    /** setGeometryFlags */
    method SetGeometryFlags(flags: GeometryFlags)
      requires Valid()
      modifies this`geometryFlags
      ensures Valid() && geometryFlags == flags
    {
      geometryFlags := flags;
    }

    /** setLayout: the layout's own margins are remembered; nothing is updated yet. */
    method SetLayout(contentsMargins: Margins)
      requires Valid()
      modifies this`hasLayout, this`layoutMargins
      ensures Valid() && hasLayout && layoutMargins == contentsMargins
    {
      layoutMargins := contentsMargins;
      hasLayout := true;
    }

    /** setSizing: DefaultSizing leaves the stored policy unchanged. */
    method SetSizing(mode: Sizing)
      requires Valid()
      modifies this`sizing
      ensures Valid()
      ensures sizing == ChosenSizing(old(sizing), mode)
    {
      if mode != DefaultSizing {
        sizing := mode;
      }
    }

    /** resize(w, h, mode): afterwards size(mode) reports (w, h). */
    method Resize(w: int, h: int, mode: Sizing)
      requires Valid()
      modifies this`width, this`height
      ensures Valid()
      ensures Extent(width, height) == ResizeTarget(Extent(w, h), mode, sizing, borderSetting)
      ensures Size(mode) == Extent(w, h)
    {
      var target := ResizeTarget(Extent(w, h), mode, sizing, borderSetting);
      width, height := target.width, target.height;
    }

    /** Apply one button step: new hover and phase, and its events. */
    method Apply(s: Step)
      modifies this`titleBarHover, this`titleBarState, this`events
      ensures titleBarHover == s.next.hover && titleBarState == s.next.state
      ensures events == old(events) + StepEvents(s)
    {
      titleBarHover, titleBarState := s.next.hover, s.next.state;
      events := events + StepEvents(s);
    }

    /** ncMouseMove */
    method NcMouseMove(p: Platform)
      requires Valid()
      modifies this`titleBarHover, this`titleBarState, this`events
      ensures Valid()
      ensures var s := Move(old(Chrome(titleBarHover, titleBarState)), frameRemoved, p.aero,
                            p.titleBarHits, p.maximized);
              Chrome(titleBarHover, titleBarState) == s.next && events == old(events) + StepEvents(s)
    {
      Apply(Move(Chrome(titleBarHover, titleBarState), frameRemoved, p.aero, p.titleBarHits, p.maximized));
    }

    /** ncMousePress */
    method NcMousePress()
      requires Valid()
      modifies this`titleBarHover, this`titleBarState, this`events
      ensures Valid()
      ensures var s := Press(old(Chrome(titleBarHover, titleBarState)));
              Chrome(titleBarHover, titleBarState) == s.next && events == old(events) + StepEvents(s)
    {
      Apply(Press(Chrome(titleBarHover, titleBarState)));
    }

    /** ncMouseRelease: a sunken button is repainted, then its action performed. */
    method NcMouseRelease()
      requires Valid()
      modifies this`titleBarHover, this`titleBarState, this`events
      ensures Valid()
      ensures var s := Release(old(Chrome(titleBarHover, titleBarState)));
              Chrome(titleBarHover, titleBarState) == s.next && events == old(events) + StepEvents(s)
      ensures old(titleBarState) == Sunken ==>
              events == old(events) + [Repaint, Perform(ActionOf(old(titleBarHover)))]
      ensures old(titleBarState) != Sunken ==> events == old(events)
    {
      Apply(Release(Chrome(titleBarHover, titleBarState)));
    }

    /** The events of a composition or theme change: updateFrame, updateMargins
        under composition, the signals, and a repaint. */
    function ChangeEvents(message: int, p: Platform): seq<Event>
      reads this
    {
      [FrameChanged]
      + (if p.aero then [MarginsEvent(p)] else [])
      + (if message == WM_DWMCOMPOSITIONCHANGED then [CompositionChangedSignal] else [])
      + [ThemeChangedSignal, Repaint]
    }

    /** nativeEvent: the routing decision, plus the side effects of a
        composition or theme change and of a non-client mouse move. */
    method HandleNativeEvent(msg: NativeMessage, p: Platform) returns (r: Option<int>)
      requires Valid()
      modifies this`titleBarHover, this`titleBarState, this`events
      ensures Valid()
      ensures r == Route(msg.message, msg.wParam, p.aero, p.dwm, frameRemoved, p.themeActive,
                         HitTestAt(msg.point, p))
      ensures msg.message in {WM_DWMCOMPOSITIONCHANGED, WM_THEMECHANGED} ==>
                events == old(events) + ChangeEvents(msg.message, p)
                && titleBarHover == old(titleBarHover) && titleBarState == old(titleBarState)
      ensures msg.message == WM_NCMOUSEMOVE ==>
                var s := Move(old(Chrome(titleBarHover, titleBarState)), frameRemoved, p.aero,
                              p.titleBarHits, p.maximized);
                Chrome(titleBarHover, titleBarState) == s.next && events == old(events) + StepEvents(s)
      ensures msg.message !in {WM_DWMCOMPOSITIONCHANGED, WM_THEMECHANGED, WM_NCMOUSEMOVE} ==>
                events == old(events)
                && titleBarHover == old(titleBarHover) && titleBarState == old(titleBarState)
    {
      r := Route(msg.message, msg.wParam, p.aero, p.dwm, frameRemoved, p.themeActive,
                 HitTestAt(msg.point, p));
      if msg.message == WM_DWMCOMPOSITIONCHANGED || msg.message == WM_THEMECHANGED {
        events := events + ChangeEvents(msg.message, p);
      }
      if msg.message == WM_NCMOUSEMOVE {
        NcMouseMove(p);
      }
    }
  }
}
