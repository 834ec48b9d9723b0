/** The routing decision of nativeEvent: whether a native window message is
    taken as handled, suppressing the toolkit's default processing, and the
    result written back when it is. */
module NativeEvent {
  import opened HitTest

  // Window message codes.
  const WM_NCCALCSIZE: int := 0x0083
  const WM_NCHITTEST: int := 0x0084
  const WM_NCPAINT: int := 0x0085
  const WM_NCMOUSEMOVE: int := 0x00A0
  const WM_THEMECHANGED: int := 0x031A
  const WM_DWMCOMPOSITIONCHANGED: int := 0x031E

  const TRUE: int := 1

  /** What the compositor's default window procedure (DwmDefWindowProc) says:
      whether it handled the message, and the result it left. */
  datatype DwmAnswer = DwmAnswer(handled: bool, result: int)

  datatype Option<T> = None | Some(value: T)

  /** The hit-test codes of the platform's own buttons. */
  predicate IsSystemButton(code: int) {
    code == HTCLOSE || code == HTMAXBUTTON || code == HTMINBUTTON || code == HTHELP
  }

  /** The decision as the source takes it, in order: the compositor's answer
      (under composition), the size calculation, the hit test and the unthemed
      frame paint. None means the message falls through to default processing;
      Some(res) means it is handled with result res. `hitTest` is what ncHitTest
      gives for the message's point. */
  function Route(message: int, wParam: int, aero: bool, dwm: DwmAnswer, frameRemoved: bool,
                 themeActive: bool, hitTest: int): (r: Option<int>)
    // With the frame removed, the size calculation claims the whole window as client area.
    ensures message == WM_NCCALCSIZE && wParam == TRUE && frameRemoved ==> r == Some(0)
    // Without composition and with the native frame kept, only an unthemed frame paint is swallowed.
    ensures !aero && !frameRemoved ==> r == (if message == WM_NCPAINT && !themeActive then Some(0) else None)
    // A non-zero answer of the compositor to a hit test (its own buttons included) is never reclassified.
    ensures message == WM_NCHITTEST && aero && dwm.result != 0 ==>
              r == (if dwm.handled then Some(dwm.result) else None)
    // Otherwise, with the frame removed, a hit test is answered by ncHitTest unless it says nowhere.
    ensures message == WM_NCHITTEST && frameRemoved && !(aero && dwm.result != 0) ==>
              r == (if hitTest != HTNOWHERE then Some(hitTest)
                    else if aero && dwm.handled then Some(0) else None)
    // An unthemed frame paint is always swallowed, with the compositor's result under composition.
    ensures message == WM_NCPAINT && !themeActive ==> r == Some(if aero then dwm.result else 0)
    // A themed frame paint keeps the compositor's answer.
    ensures message == WM_NCPAINT && themeActive ==> r == (if aero && dwm.handled then Some(dwm.result) else None)
    // A size calculation the window does not claim, and a hit test on a kept frame, keep the compositor's answer.
    ensures (message == WM_NCCALCSIZE && !(wParam == TRUE && frameRemoved))
            || (message == WM_NCHITTEST && !frameRemoved) ==>
              r == (if aero && dwm.handled then Some(dwm.result) else None)
    // Other messages keep the compositor's answer.
    ensures message !in {WM_NCCALCSIZE, WM_NCHITTEST, WM_NCPAINT} ==>
              r == (if aero && dwm.handled then Some(dwm.result) else None)
  {
    var (handled0, res0) := if aero then (dwm.handled, dwm.result) else (false, 0);
    var (handled1, res1) :=
      if message == WM_NCCALCSIZE && wParam == TRUE && frameRemoved then (true, 0)
      else (handled0, res0);
    var (handled2, res2) :=
      if message == WM_NCHITTEST && res1 == 0 && frameRemoved then
        var res := if !IsSystemButton(res1) then hitTest else res1;
        (handled1 || res != HTNOWHERE, res)
      else (handled1, res1);
    var handled3 := handled2 || (message == WM_NCPAINT && !themeActive);
    if handled3 then Some(res2) else None
  }

  /** Whatever the compositor answered, a hit test on a removed frame never
      hands back one of the platform's button codes unless the compositor gave
      it. */
  lemma HitTestKeepsSystemButtons(wParam: int, aero: bool, dwm: DwmAnswer, themeActive: bool,
                                  cur: Point, win: WinRect, border: int, titleBar: int,
                                  buttons: TitleBar.ButtonHits, foreignChild: bool,
                                  captions: seq<Captions.WidgetId>, boxOf: Captions.WidgetId -> Captions.Box)
    ensures var hit := NcHitTest(cur, win, border, titleBar, buttons, foreignChild, captions, boxOf);
            var r := Route(WM_NCHITTEST, wParam, aero, dwm, true, themeActive, hit);
            r.Some? && IsSystemButton(r.value) ==> aero && dwm.handled && r.value == dwm.result
  {
  }
}
