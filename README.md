# CustomWindow frame model

A Dafny model of the custom window chrome in `src/CustomWindow.cc`. The window removes the native Windows frame, draws its own border, title bar and buttons, and still works with the Desktop Window Manager (DWM, the compositor). The model covers:

- **Geometry** (`geometry.dfy`): the client rectangle (`clientGeometry`). The margins pushed to the compositor (`updateMargins`) and to the layout (`updateLayoutMargins`). The `-1` "platform default" sentinel of the border and title-bar sizes. The content-sizing modifier of `size`/`resize`/`setSizing`.
- **Captions** (`captions.dfy`): the caption registry. `isCaption` as a function over the registered widgets' boxes. `removeCaption` as its erasing loop leaves the registry.
- **TitleBar** (`title_bar.dfy`): the hover/press state machine of the close, maximize, minimize and restore buttons, one pure step per mouse event.
- **HitTest** (`hit_test.dfy`): `ncHitTest`, its 3 x 4 zone table `ncHitZone` and the platform's `HT*` codes.
- **NativeEvent** (`native_event.dfy`): the decision `nativeEvent` takes. A message is either handled with a result, or falls through to default processing.
- **Window** (`custom_window.dfy`): class `CustomWindow`. It holds the fields the source updates in place: the sizes, margins, flags, sizing policy, the caption vector, and the hover and phase of the title-bar buttons. Its methods are the setters, `declareCaption`/`removeCaption` (the latter as the index loop that erases), `ncMouseMove`/`ncMousePress`/`ncMouseRelease` and `nativeEvent`. Each method is proved against the pure functions above. Repaints, window actions (close, maximize, minimize, restore), `updateFrame`, the DWM margin call, the layout margin call, mouse tracking and the two signals go into an event log field, in the order the source issues them.

Every platform or style query is an input. That covers composition and theme state, pixel metrics, `isMaximized`, `GetWindowRect`, the answer of `DwmDefWindowProc`, whether the point lies in a title-bar button's sub-control rectangle, whether `widgetAt` finds a foreign child, and each caption widget's current box. In the class these are gathered in a `Platform` record.

Behaviour of the code worth noting; the model follows the code as written:
- Over a title-bar button or a foreign child widget, `ncHitTest` answers `HTCLIENT` (or `HTCAPTION` inside a declared caption). It never answers a button code.
- The extra margins enter the client rectangle only while composition is active, even when the margin flag is set.
- The title band of the hit test includes row `top + border + titleBar`. So the top row of the client rectangle hit-tests as caption, not as nowhere (`HitTest.ClientAreaHitTest`).
- `nativeEvent` reclassifies a hit test only when the DWM result is 0. Its test against `HTCLOSE`/`HTMAXBUTTON`/`HTMINBUTTON`/`HTHELP` therefore never fires. Non-zero DWM answers are still never reclassified (`NativeEvent.Route`).
- `size`/`resize` use the stored border field, not the resolved border. While the border is left to the platform (-1), content sizing adds -2 to each dimension. This is modelled as written.
- `removeCaption` moves its index on after an erase. Two consecutive references to the same widget therefore leave one behind. This is modelled as written (`Captions.RemovedAsWrittenSkipsSecondCopy`).

## Model

| member | source | states |
|---|---|---|
| Geometry.NormalizedSize | src/CustomWindow.cc:526-531 | the stored size is at least -1; reading it back gives the requested size when it is non-negative and the platform's value otherwise |
| Geometry.BorderSize | src/CustomWindow.cc:73-78 | a non-negative stored border is used as is; the -1 sentinel reads as the style's MDI frame width |
| Geometry.TitleBarSize | src/CustomWindow.cc:612-622 | a non-negative stored height is used as is; the sentinel reads as title-bar height less sub-window frame width |
| Geometry.ClientGeometry | src/CustomWindow.cc:84-93 | the client rectangle lies margin + border inside the left, right and bottom edges and margin + border + title bar inside the top edge; margins count only under composition with the margin flag, border and title bar only with the frame removed and their flag |
| Geometry.ClientGeometryFrameRemoved | src/CustomWindow.cc:84-93 | frame removed, border and title-bar flags set, no margins: the rectangle is (b, b+t, W-2b, H-2b-t) |
| Geometry.ClientGeometryFrameKept | src/CustomWindow.cc:85-87 | with the native frame kept, only the active extra margins are taken off, whatever the flags say |
| Geometry.ClientGeometryExample | src/CustomWindow.cc:89-90 | 800x600, border 4, title bar 30, frame removed gives (4, 34, 792, 562) |
| Geometry.FrameExtension | src/CustomWindow.cc:654-665 | the DWM margins are the extra margins, plus the border on every side and the title bar on top once the frame is removed |
| Geometry.FrameExtensionIsClientInsets | src/CustomWindow.cc:654-665 | the DWM margins equal the client rectangle's insets under composition with every part in play |
| Geometry.LayoutContentsMargins | src/CustomWindow.cc:644-647 | the layout's contents margins are the client rectangle's distances to each window edge plus the layout's own margins |
| Geometry.LayoutMarginsMatchFrameExtension | src/CustomWindow.cc:640-647 | under composition with every part in play, a layout without margins of its own is inset exactly as far as the DWM frame extension |
| Geometry.EffectiveSizing | src/CustomWindow.cc:514 | defaultSizing resolves to the stored policy, any other policy is used; a stored non-default policy never resolves to default |
| Geometry.ChosenSizing | src/CustomWindow.cc:563-569 | setSizing(defaultSizing) keeps the stored policy; the stored policy is what the request resolves to and never becomes defaultSizing |
| Geometry.ResizeTarget | src/CustomWindow.cc:512-519 | without content sizing the requested size is used as is; with it, twice the stored border is added to each dimension |
| Geometry.ContentSize | src/CustomWindow.cc:597-605 | size(mode) is the content size that resize(..., mode) turns back into the current window size; without content sizing it is the window size |
| Geometry.ContentSizeAfterResize | src/CustomWindow.cc:512-519 | resize(w, h, mode) followed by size(mode) reports (w, h) |
| Captions.IsCaption | src/CustomWindow.cc:175-188 | true iff some registered widget's box contains the point, all four bounds inclusive |
| Captions.RemovedAsWritten | src/CustomWindow.cc:503-510 | the registry the erasing loop leaves never grows |
| Captions.RemovedAsWrittenChangesOnlyMatches | src/CustomWindow.cc:503-510 | removing an unregistered widget leaves the registry unchanged; removing a registered one shortens it |
| Captions.RemovedAsWrittenKeepsOthers | src/CustomWindow.cc:503-510 | removeCaption deletes only references to the widget; every other entry keeps its relative order |
| Captions.RemovedAsWrittenComplete | src/CustomWindow.cc:503-510 | with no two consecutive references to the widget, every reference is removed |
| Captions.RemovedAsWrittenSkipsSecondCopy | src/CustomWindow.cc:505-509 | of two consecutive references, the second slides into the erased slot and survives |
| Captions.RemoveUndoesDeclare | src/CustomWindow.cc:101-104 | declaring a widget that was not registered, then removing it, restores the registry |
| TitleBar.ResolveControl | src/CustomWindow.cc:341-368 | close wins; the maximize rectangle is the maximize button when not maximized and the restore button when maximized; minimize is tested between the two; otherwise no control |
| TitleBar.Move | src/CustomWindow.cc:325-376 | frame kept or composition on: idle, no repaint; otherwise hover becomes the resolved control, repainting iff it changed; a move onto a different control sets MouseOver (idle over no control), so a pressed button does not stay sunken; a move onto the hovered control changes nothing; never an action |
| TitleBar.Press | src/CustomWindow.cc:378-383 | over a button: sunken and repainted; over nothing: unchanged |
| TitleBar.ActionOf | src/CustomWindow.cc:390-397 | close closes, maximize maximizes, minimize minimizes, restore shows normal, each action coming from that button alone; only "no control" maps to none |
| TitleBar.Release | src/CustomWindow.cc:385-399 | only a sunken button reacts: it returns to MouseOver, repaints and performs the action bound to it |
| TitleBar.StepsKeepConsistent | src/CustomWindow.cc:325-399 | every step keeps "a button is hovered iff a phase is shown" |
| TitleBar.ReleaseActsOnlyWhenSunken | src/CustomWindow.cc:385-398 | a release performs an action exactly when the button was sunken |
| TitleBar.MoveIdempotent | src/CustomWindow.cc:341-375 | a second move with the same inputs changes nothing and does not repaint |
| TitleBar.MoveKeepsSunken | src/CustomWindow.cc:342-346 | moving onto the pressed button keeps it sunken |
| TitleBar.RepeatedMovesRepaintOnce | src/CustomWindow.cc:341-375 | n moves onto the same control make one transition and at most one repaint |
| TitleBar.MaximizedWindowRestores | src/CustomWindow.cc:362-397 | hover, press and release on the maximize rectangle of a maximized window restores it |
| TitleBar.PressReleaseActs | src/CustomWindow.cc:378-398 | press then release performs the hovered button's action once and ends over it |
| HitTest.HitZone | src/CustomWindow.cc:33-37 | every zone pair gives one of the ten codes of the table |
| HitTest.XZone | src/CustomWindow.cc:317-320 | zone 0 exactly on the left band (left edge inclusive, left + border exclusive); zone 2 exactly on the right band (right - border inclusive, right edge exclusive) outside the left band, which is tested first |
| HitTest.YZone | src/CustomWindow.cc:310-315 | zone 0 exactly on the top band, both ends inclusive; zone 1 exactly below top + border down to top + border + title bar inclusive; zone 3 only on the bottom band, and exactly on it below the title band |
| HitTest.HasControls | src/CustomWindow.cc:122-145 | true over a foreign child or the restore rectangle; otherwise, for the same sub-control hits, exactly where the title-bar machine would hover a button, maximized or not (in the source the hits are the same only while the theme is active, since the two title rectangles differ otherwise) |
| HitTest.NcHitTest | src/CustomWindow.cc:291-323 | over a control or foreign child: caption iff a declared caption box holds the point, client otherwise; elsewhere the zone table entry; never a system-button code |
| HitTest.TopLeftCorner | src/CustomWindow.cc:310-318 | a point in the left band and the top band is HTTOPLEFT |
| HitTest.OtherCorners | src/CustomWindow.cc:310-322 | the right band with the top band is HTTOPRIGHT; either side band with the bottom band below the title bar is the matching bottom corner |
| HitTest.InteriorBands | src/CustomWindow.cc:310-322 | between the side bands, the title band is HTCAPTION and the middle band is HTNOWHERE |
| HitTest.TopBeforeBottom | src/CustomWindow.cc:310-315 | where the top and bottom bands overlap, the top band wins |
| HitTest.ControlsBeforeZones | src/CustomWindow.cc:299-305 | over a control or foreign child the answer does not depend on the border, the title bar or the window's far edges, only on the point relative to the window's origin |
| HitTest.ClientAreaHitTest | src/CustomWindow.cc:310-313 | inside the client rectangle the hit test gives HTNOWHERE, except HTCAPTION on its top row |
| HitTest.HitTestExample | src/CustomWindow.cc:291-323 | 800x600, border 4, title bar 30: (2,2) top-left, (400,2) top, (400,20) caption, (400,300) nowhere |
| NativeEvent.Route | src/CustomWindow.cc:237-288 | size calculation with wParam TRUE and the frame removed is handled with 0, any other keeps DWM's answer; non-zero DWM hit-test answers are kept; otherwise, with the frame removed, the hit test answers unless nowhere, and with the frame kept DWM's answer stands; an unthemed frame paint is always handled (with DWM's result under composition, else 0), a themed one keeps DWM's answer; other messages keep DWM's answer |
| NativeEvent.HitTestKeepsSystemButtons | src/CustomWindow.cc:247-253 | a handled hit test returns a system-button code only if the DWM gave it |
| Window.StepEvents | src/CustomWindow.cc:386-397 | a step logs a repaint iff it requested one, first; its action, if any, is logged last; no other action is ever logged, and nothing else: one event per repaint and per action |
| Window.CustomWindow.constructor | src/CustomWindow.cc:47-65 | initial state: sizes left to the platform (border 1 on Windows 10), frame kept, no margins, idle buttons, content sizing |
| Window.CustomWindow.DeclareCaption | src/CustomWindow.cc:101-104 | the widget is appended to the registry |
| Window.CustomWindow.RemoveCaption | src/CustomWindow.cc:503-510 | the index loop leaves exactly RemovedAsWritten of the old registry; entries other than the widget are unchanged and in order |
| Window.CustomWindow.UpdateMargins | src/CustomWindow.cc:650-668 | pushes FrameExtension of the current settings to the compositor |
| Window.CustomWindow.UpdateLayoutMargins | src/CustomWindow.cc:640-648 | with a layout, sets its contents margins from the client rectangle; without one, nothing |
| Window.CustomWindow.SetBorderSize | src/CustomWindow.cc:526-537 | stores the normalized size, which reads back as requested or as the platform's; with the frame removed, updates frame, DWM margins and layout margins |
| Window.CustomWindow.SetTitleBarSize | src/CustomWindow.cc:579-590 | as SetBorderSize, for the title bar |
| Window.CustomWindow.SetExtraMargins | src/CustomWindow.cc:539-543 | stores the margins, then updates DWM and layout margins |
| Window.CustomWindow.SetFrameRemoved | src/CustomWindow.cc:545-551 | stores the flag, updates frame and margins, and tracks the mouse exactly while the frame is removed |
| Window.CustomWindow.SetGeometryFlags | src/CustomWindow.cc:553-555 | stores the flags |
| Window.CustomWindow.SetLayout | src/CustomWindow.cc:557-561 | remembers the layout's own margins |
| Window.CustomWindow.SetSizing | src/CustomWindow.cc:563-569 | the stored policy becomes ChosenSizing; it is never defaultSizing |
| Window.CustomWindow.Resize | src/CustomWindow.cc:512-519 | the window takes the size resize asks for, and Size(mode) then reports (w, h) |
| Window.CustomWindow.NcMouseMove | src/CustomWindow.cc:325-376 | hover and phase become those of Move, and its repaint is logged |
| Window.CustomWindow.NcMousePress | src/CustomWindow.cc:378-383 | hover and phase become those of Press, and its repaint is logged |
| Window.CustomWindow.NcMouseRelease | src/CustomWindow.cc:385-399 | a sunken button logs a repaint and then exactly one action; otherwise nothing changes |
| Window.CustomWindow.HandleNativeEvent | src/CustomWindow.cc:229-289 | returns Route's decision; a composition or theme change logs frame update, DWM margins under composition, signals and repaint; a non-client mouse move runs ncMouseMove |

## Left out

- Painting (`paintEvent`, `paintWinFrame`): pixel rendering through the toolkit's painters; the opacity handling there is floating point.
- Translucency (`enableTransluentBackground`, `disableTransluentBackground`, `hasTransluentBackground`, `transluentBackgroundOpacity`) and `EnableWindowBlur`/`DisableWindowBlur`: floating-point opacity and undocumented platform calls probed at run time.
- Window-style bits (`haveSystemMenu`, `hideSystemMenu`, `showSystemMenu`, `setSystemMenu`, `setResizable`): foreign platform calls.
- `isAeroActivated` and `isThemeActivated` are inputs. Within one call the model reads each once, where the source queries again.
- `updateFrame` is logged as one event. The `WM_NCCALCSIZE` that the platform then sends back is not replayed.
- `AdjustWindowRectEx` in `ncHitTest`: its result is never used.
- `hasControls` and `ncMouseMove`: the style's sub-control rectangles and `QApplication::widgetAt` are given as booleans. The title rectangle they are computed from (which depends on theme state in `ncMouseMove`) is therefore not modelled.
- `isCaption`: each widget's box (`mapToGlobal` less the window position, and the widget's size) is given by a function of the widget.
- `mouseMoveEvent`, `mousePressEvent`, `mouseReleaseEvent`: they only translate coordinates before calling the non-client handlers.
- Accessors (`extraMargins`, `geometryFlags`, `isFrameRemoved`, `isGeometryFlagsActivated`, `sizing`) and the `resize(const QSize&)` overload: these are plain reads of the fields, or a forward to `resize(w, h, method)`.
- Integer width: coordinates and sizes are unbounded integers. The source's 32-bit overflow and the 16-bit sign extension of `GET_X_LPARAM`/`GET_Y_LPARAM` are not modelled.
- `QWidget::resize` is taken to set exactly the requested size. The toolkit's minimum and maximum size constraints are not modelled.
- `DwmDefWindowProc`'s result is taken as whatever value it leaves, whether or not it handled the message.
- The header `CustomWindow.hh` is not part of this model. The geometry-flag bits are three booleans. The sizing policies other than content and default sizing are one `FullSizing` value. The initial geometry flags are a constructor argument.
- The Windows 10 version check in the constructor is an argument.
- Signals `compositionChanged`/`themeChanged` and `repaint` are logged events only.
