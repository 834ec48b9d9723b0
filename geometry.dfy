/** Frame geometry of the custom-chrome window: the client rectangle that is
    left once the extra margins, the border and the title bar are taken off
    the window, the margins handed to the compositor, the margins handed to
    the layout, the "platform default" size sentinel and the content-sizing
    modifier. Every platform query is a parameter. */
module Geometry {

  /** Four per-side distances (a QMargins). */
  datatype Margins = Margins(left: int, top: int, right: int, bottom: int)

  const NO_MARGINS := Margins(0, 0, 0, 0)

  function AddMargins(a: Margins, b: Margins): Margins {
    Margins(a.left + b.left, a.top + b.top, a.right + b.right, a.bottom + b.bottom)
  }

  /** A rectangle built from its top-left corner and its extent, as the
      QRect(left, top, width, height) constructor builds it. */
  datatype Rect = Rect(left: int, top: int, width: int, height: int)

  /** How far each side of `r` lies inside a `width` x `height` window. */
  function Insets(r: Rect, width: int, height: int): Margins {
    Margins(r.left, r.top, width - r.left - r.width, height - r.top - r.height)
  }

  /** Which parts take part in a client-rectangle computation: the
      CALCSIZE_USE_MARGIN, CALCSIZE_USE_BORDER and CALCSIZE_USE_TITLEBAR bits. */
  datatype GeometryFlags = GeometryFlags(useMargin: bool, useBorder: bool, useTitleBar: bool)

  const ALL_PARTS := GeometryFlags(true, true, true)

  /** The style metrics read when a size is left to the platform:
      PM_MDIFrameWidth, PM_TitleBarHeight and PM_MdiSubWindowFrameWidth. */
  datatype Metrics = Metrics(mdiFrameWidth: int, titleBarHeight: int, subWindowFrameWidth: int)

  /** A stored size, with a negative value standing for the platform's own. */
  function ResolvedSize(stored: int, platform: int): int {
    if stored < 0 then platform else stored
  }

  /** setBorderSize / setTitleBarSize: every negative request is stored as the
      -1 sentinel, so that reading it back gives the platform's value, and a
      non-negative request is read back as it was given. */
  function NormalizedSize(size: int): (r: int)
    ensures r >= -1
    ensures forall platform :: ResolvedSize(r, platform) == if size < 0 then platform else size
  {
    if size < 0 then -1 else size
  }

  /** borderSize(): the stored border, or the platform's MDI frame width. */
  function BorderSize(stored: int, m: Metrics): (r: int)
    ensures stored >= 0 ==> r == stored
    ensures stored < 0 ==> r == m.mdiFrameWidth
  {
    ResolvedSize(stored, m.mdiFrameWidth)
  }

  /** titleBarSize(): the stored height, or the platform's title-bar height
      less its sub-window frame width. */
  function TitleBarSize(stored: int, m: Metrics): (r: int)
    ensures stored >= 0 ==> r == stored
    ensures stored < 0 ==> r == m.titleBarHeight - m.subWindowFrameWidth
  {
    ResolvedSize(stored, m.titleBarHeight - m.subWindowFrameWidth)
  }

  /** The extra margins take part only with composition on and the margin bit set. */
  function ActiveMargins(aero: bool, flags: GeometryFlags, margins: Margins): Margins {
    if aero && flags.useMargin then margins else NO_MARGINS
  }

  /** The border and the title bar take part only once the native frame is removed
      and their bit is set. */
  function ActiveBorder(frameRemoved: bool, flags: GeometryFlags, border: int): int {
    if frameRemoved && flags.useBorder then border else 0
  }

  function ActiveTitleBar(frameRemoved: bool, flags: GeometryFlags, titleBar: int): int {
    if frameRemoved && flags.useTitleBar then titleBar else 0
  }

  /** clientGeometry(flags): the rectangle of a `width` x `height` window left for
      content. `border` and `titleBar` are the resolved sizes. The rectangle sits
      margin + border inside the left, right and bottom edges and
      margin + border + title bar inside the top edge; it may be degenerate. */
  function ClientGeometry(width: int, height: int, aero: bool, flags: GeometryFlags,
                          margins: Margins, frameRemoved: bool, border: int, titleBar: int): (r: Rect)
    ensures
      var m := ActiveMargins(aero, flags, margins);
      var b := ActiveBorder(frameRemoved, flags, border);
      var t := ActiveTitleBar(frameRemoved, flags, titleBar);
      Insets(r, width, height) == Margins(m.left + b, m.top + b + t, m.right + b, m.bottom + b)
  {
    var m := ActiveMargins(aero, flags, margins);
    var b := ActiveBorder(frameRemoved, flags, border);
    var t := ActiveTitleBar(frameRemoved, flags, titleBar);
    Rect(m.left + b, m.top + b + t, width - m.left - m.right - 2 * b,
         height - m.top - m.bottom - 2 * b - t)
  }

  /** With the frame removed, both frame bits set and no margins in play, the
      client area is the window less the border on every side and the title
      bar at the top. */
  lemma ClientGeometryFrameRemoved(width: int, height: int, aero: bool, flags: GeometryFlags,
                                   margins: Margins, border: int, titleBar: int)
    requires flags.useBorder && flags.useTitleBar && !(aero && flags.useMargin)
    ensures ClientGeometry(width, height, aero, flags, margins, true, border, titleBar)
         == Rect(border, border + titleBar, width - 2 * border, height - 2 * border - titleBar)
  {
  }

  /** With the native frame kept, border and title bar never count, whatever the
      bits say: only the extra margins (under composition) are taken off. */
  lemma ClientGeometryFrameKept(width: int, height: int, aero: bool, flags: GeometryFlags,
                                margins: Margins, border: int, titleBar: int)
    ensures Insets(ClientGeometry(width, height, aero, flags, margins, false, border, titleBar), width, height)
         == ActiveMargins(aero, flags, margins)
  {
  }

  /** An 800 x 600 window, border 4, title bar 30, frame removed, no composition. */
  lemma ClientGeometryExample()
    ensures ClientGeometry(800, 600, false, ALL_PARTS, NO_MARGINS, true, 4, 30) == Rect(4, 34, 792, 562)
  {
  }

  /** updateMargins: the margins extended into the client area through the
      compositor. Each side is the extra margin, plus the border once the
      frame is removed, plus the title bar on top. */
  function FrameExtension(margins: Margins, frameRemoved: bool, border: int, titleBar: int): (r: Margins)
    ensures !frameRemoved ==> r == margins
    ensures frameRemoved ==> r == AddMargins(margins, Margins(border, border + titleBar, border, border))
  {
    if frameRemoved then
      Margins(margins.left + border, margins.top + titleBar + border,
              margins.right + border, margins.bottom + border)
    else margins
  }

  /** The frame handed to the compositor is exactly the client rectangle's
      insets when composition is on and every part takes part. */
  lemma FrameExtensionIsClientInsets(width: int, height: int, margins: Margins, frameRemoved: bool,
                                     border: int, titleBar: int)
    ensures FrameExtension(margins, frameRemoved, border, titleBar)
         == Insets(ClientGeometry(width, height, true, ALL_PARTS, margins, frameRemoved, border, titleBar),
                   width, height)
  {
  }

  /** updateLayoutMargins: the layout's contents margins are the distances from
      each window edge to the client rectangle, plus the layout's own margins. */
  function LayoutContentsMargins(width: int, height: int, client: Rect, layoutMargins: Margins): (r: Margins)
    ensures r == AddMargins(Insets(client, width, height), layoutMargins)
  {
    Margins(client.left + layoutMargins.left, client.top + layoutMargins.top,
            (width - client.left - client.width) + layoutMargins.right,
            (height - client.top - client.height) + layoutMargins.bottom)
  }

  /** A layout without margins of its own, under composition with every part
      in play, is inset exactly as far as the frame the compositor extends. */
  lemma LayoutMarginsMatchFrameExtension(width: int, height: int, margins: Margins, frameRemoved: bool,
                                         border: int, titleBar: int)
    ensures LayoutContentsMargins(width, height,
              ClientGeometry(width, height, true, ALL_PARTS, margins, frameRemoved, border, titleBar), NO_MARGINS)
         == FrameExtension(margins, frameRemoved, border, titleBar)
  {
  }

  /** The sizing policies; DefaultSizing stands for the window's stored one. */
  datatype Sizing = ContentSizing | FullSizing | DefaultSizing

  /** defaultSizing resolves to the stored policy; any other is used as given. */
  function EffectiveSizing(mode: Sizing, stored: Sizing): (r: Sizing)
    ensures mode != DefaultSizing ==> r == mode
    ensures mode == DefaultSizing ==> r == stored
    ensures stored != DefaultSizing ==> r != DefaultSizing
  {
    if mode == DefaultSizing then stored else mode
  }

  /** setSizing: a request for DefaultSizing leaves the stored policy as it is,
      so the stored policy never becomes DefaultSizing. */
  function ChosenSizing(stored: Sizing, mode: Sizing): (r: Sizing)
    ensures mode == DefaultSizing ==> r == stored
    ensures stored != DefaultSizing ==> r != DefaultSizing
    ensures r == EffectiveSizing(mode, stored)
  {
    if mode != DefaultSizing then mode else stored
  }

  /** A width and a height (a QSize). */
  datatype Extent = Extent(width: int, height: int)

  /** The amount added to each dimension of the content under content sizing:
      twice the STORED border, which is -1 when the border is the platform's. */
  function SizeModifier(mode: Sizing, stored: Sizing, borderSetting: int): int {
    if EffectiveSizing(mode, stored) == ContentSizing then 2 * borderSetting else 0
  }

  /** resize(w, h, mode): the window size asked of the toolkit. */
  function ResizeTarget(content: Extent, mode: Sizing, stored: Sizing, borderSetting: int): (r: Extent)
    ensures EffectiveSizing(mode, stored) != ContentSizing ==> r == content
    // Content sizing adds the stored border on both sides of each dimension.
    ensures EffectiveSizing(mode, stored) == ContentSizing ==>
              r.width - content.width == r.height - content.height == 2 * borderSetting
  {
    var k := SizeModifier(mode, stored, borderSetting);
    Extent(content.width + k, content.height + k)
  }

  /** size(mode): the content size reported for a window of size `window`; it is
      exactly the size that resize(…, mode) turns back into `window`, and under
      full sizing it is the window itself. */
  function ContentSize(window: Extent, mode: Sizing, stored: Sizing, borderSetting: int): (r: Extent)
    ensures ResizeTarget(r, mode, stored, borderSetting) == window
    ensures EffectiveSizing(mode, stored) != ContentSizing ==> r == window
  {
    var k := SizeModifier(mode, stored, borderSetting);
    Extent(window.width - k, window.height - k)
  }

  /** resize(w, h, mode) followed by size(mode) reports (w, h). */
  lemma ContentSizeAfterResize(content: Extent, mode: Sizing, stored: Sizing, borderSetting: int)
    ensures ContentSize(ResizeTarget(content, mode, stored, borderSetting), mode, stored, borderSetting) == content
  {
  }
}
