/**
 * The slice of the Windows API that the background-input core talks to, modelled as a
 * value. Every call of the source becomes a function on `Os` (or a lookup in it); whether
 * a call raises is decided by an oracle parameter of the operation that makes the call.
 */
module Win32 {
  import opened Wrappers

  datatype Point = Point(x: int, y: int)

  /** `GetWindowRect`: (left, top, right, bottom) in screen coordinates. */
  datatype Rect = Rect(left: int, top: int, right: int, bottom: int)
  {
    function Width(): int { right - left }
    function Height(): int { bottom - top }
  }

  /**
   * One window as the OS reports it. `clientWidth`/`clientHeight` are entries 2 and 3 of
   * `GetClientRect`; `clientOrigin` is the screen position `ScreenToClient` subtracts, or
   * None when that call raises; `parent` is `GetParent`: the parent of a child window,
   * the owner of an owned top-level window, 0 otherwise; `child` is the `WS_CHILD` style,
   * which is what keeps a window out of `EnumWindows`.
   */
  datatype Window = Window(
    hwnd: int, title: string, className: string, visible: bool,
    rect: Rect, clientWidth: int, clientHeight: int,
    clientOrigin: Option<Point>, parent: int, child: bool)

  /** A posted window message: `PostMessage(hwnd, msg, wParam, lParam)`. */
  datatype Message = Message(hwnd: int, msg: int, wParam: int, lParam: int)

  /** Hardware-level effects: `SetCursorPos`, and one `mouse_event`/`SendInput` record. */
  datatype HwEvent =
    | CursorTo(pos: Point)
    | MouseInput(flags: bv32, dx: int, dy: int, data: int)

  /**
   * The observable desktop: the windows in `EnumWindows` order, the foreground window
   * (0 for none), the cursor, and the logs of everything posted and injected.
   */
  datatype Os = Os(
    windows: seq<Window>, foreground: int, cursor: Point,
    posted: seq<Message>, injected: seq<HwEvent>)

  /** How a Python call ended: a returned bool, an exception that escaped, or a hand-off
      to the inherited foreground implementation. */
  datatype Outcome = Returned(ok: bool) | Raised | Delegated

  /**
   * Faults of a cursor-teleport sequence: the hardware call with index `failAt` raises
   * (calls are numbered from 0 in the order the source makes them), and the restoring
   * `SetCursorPos` of the cleanup path succeeds iff `restoreOk`.
   */
  datatype HwFaults = HwFaults(failAt: nat, restoreOk: bool)

  // Message numbers and flags from the Windows headers.
  const WM_KEYDOWN := 0x0100
  const WM_KEYUP := 0x0101
  const WM_CHAR := 0x0102
  const WM_MOUSEMOVE := 0x0200
  const WM_LBUTTONDOWN := 0x0201
  const WM_LBUTTONUP := 0x0202
  const WM_RBUTTONDOWN := 0x0204
  const WM_RBUTTONUP := 0x0205
  const WM_MOUSELEAVE := 0x02A3
  const MK_LBUTTON := 0x0001
  const MK_RBUTTON := 0x0002

  const MOUSEEVENTF_MOVE: bv32 := 0x0001
  const MOUSEEVENTF_LEFTDOWN: bv32 := 0x0002
  const MOUSEEVENTF_LEFTUP: bv32 := 0x0004
  const MOUSEEVENTF_RIGHTDOWN: bv32 := 0x0008
  const MOUSEEVENTF_RIGHTUP: bv32 := 0x0010
  const MOUSEEVENTF_ABSOLUTE: bv32 := 0x8000

  /** The window a handle names, if any (the first with that handle). */
  function Find(os: Os, hwnd: int): (r: Option<Window>)
    ensures r.Some? ==> r.value in os.windows && r.value.hwnd == hwnd
    ensures r.None? ==> forall w :: w in os.windows ==> w.hwnd != hwnd
  {
    FindIn(os.windows, hwnd)
  }

  function FindIn(ws: seq<Window>, hwnd: int): (r: Option<Window>)
    ensures r.Some? ==> r.value in ws && r.value.hwnd == hwnd
    ensures r.None? ==> forall w :: w in ws ==> w.hwnd != hwnd
  {
    if ws == [] then None
    else if ws[0].hwnd == hwnd then Some(ws[0])
    else FindIn(ws[1..], hwnd)
  }

  /** `IsWindow(hwnd)`. */
  predicate IsWindow(os: Os, hwnd: int)
  {
    Find(os, hwnd).Some?
  }

  /** What `EnumWindows` visits: the top-level windows (owned pop-ups included), in order. */
  function TopLevel(os: Os): (r: seq<Window>)
    ensures forall w :: w in r <==> w in os.windows && !w.child
  {
    TopLevelIn(os.windows)
  }

  function TopLevelIn(ws: seq<Window>): (r: seq<Window>)
    ensures forall w :: w in r <==> w in ws && !w.child
  {
    if ws == [] then []
    else (if !ws[0].child then [ws[0]] else []) + TopLevelIn(ws[1..])
  }

  /** `MoveWindow(hwnd, x, y, w, h)` on a live handle: the window rectangle becomes
      (x, y, x + w, y + h); nothing else changes. */
  function MoveWindow(os: Os, hwnd: int, x: int, y: int, w: int, h: int): (r: Os)
    ensures |r.windows| == |os.windows|
    ensures forall i :: 0 <= i < |os.windows| ==>
      r.windows[i] == if os.windows[i].hwnd == hwnd
                      then os.windows[i].(rect := Rect(x, y, x + w, y + h))
                      else os.windows[i]
    ensures r.foreground == os.foreground && r.cursor == os.cursor
    ensures r.posted == os.posted && r.injected == os.injected
  {
    os.(windows := seq(|os.windows|, i requires 0 <= i < |os.windows| =>
      if os.windows[i].hwnd == hwnd then os.windows[i].(rect := Rect(x, y, x + w, y + h))
      else os.windows[i]))
  }

  /** After moving, the handle names a window with exactly the requested rectangle. */
  lemma MoveWindowSetsRect(os: Os, hwnd: int, x: int, y: int, w: int, h: int)
    requires IsWindow(os, hwnd)
    ensures Find(MoveWindow(os, hwnd, x, y, w, h), hwnd).Some?
    ensures Find(MoveWindow(os, hwnd, x, y, w, h), hwnd).value.rect == Rect(x, y, x + w, y + h)
  {
    var rect := Rect(x, y, x + w, y + h);
    FindInUpdated(os.windows, MoveWindow(os, hwnd, x, y, w, h).windows, hwnd, (v: Window) => v.(rect := rect));
  }

  /**
   * `ShowWindow(hwnd, SW_SHOWMAXIMIZED)`: the window becomes visible and takes the rectangle
   * `area` the system gives a maximised window (the work area of its monitor); an invalid
   * handle changes nothing.
   */
  function ShowMaximized(os: Os, hwnd: int, area: Rect): (r: Os)
    ensures |r.windows| == |os.windows|
    ensures forall i :: 0 <= i < |os.windows| ==>
      r.windows[i] == if os.windows[i].hwnd == hwnd
                      then os.windows[i].(visible := true, rect := area)
                      else os.windows[i]
    ensures r.foreground == os.foreground && r.cursor == os.cursor
    ensures r.posted == os.posted && r.injected == os.injected
  {
    os.(windows := seq(|os.windows|, i requires 0 <= i < |os.windows| =>
      if os.windows[i].hwnd == hwnd then os.windows[i].(visible := true, rect := area)
      else os.windows[i]))
  }

  /** A maximised live window is still found, visible, with the maximised rectangle. */
  lemma ShowMaximizedSetsRect(os: Os, hwnd: int, area: Rect)
    requires IsWindow(os, hwnd)
    ensures Find(ShowMaximized(os, hwnd, area), hwnd).Some?
    ensures Find(ShowMaximized(os, hwnd, area), hwnd).value.rect == area
    ensures Find(ShowMaximized(os, hwnd, area), hwnd).value.visible
  {
    FindInUpdated(os.windows, ShowMaximized(os, hwnd, area).windows, hwnd, (v: Window) => v.(visible := true, rect := area));
  }

  /** Updating every window with a handle by `f` (which keeps the handle) makes the lookup
      answer the updated first window. */
  lemma {:induction false} FindInUpdated(ws: seq<Window>, moved: seq<Window>, hwnd: int, f: Window -> Window)
    requires FindIn(ws, hwnd).Some?
    requires |moved| == |ws|
    requires forall i :: 0 <= i < |ws| ==> moved[i] == if ws[i].hwnd == hwnd then f(ws[i]) else ws[i]
    requires forall v :: f(v).hwnd == v.hwnd
    ensures FindIn(moved, hwnd) == Some(f(FindIn(ws, hwnd).value))
  {
    if ws[0].hwnd != hwnd {
      FindInUpdated(ws[1..], moved[1..], hwnd, f);
    }
  }

  /** One more message in the target's queue. */
  function Post(os: Os, m: Message): (r: Os)
    ensures r.posted == os.posted + [m]
    ensures r.windows == os.windows && r.cursor == os.cursor && r.injected == os.injected
    ensures r.foreground == os.foreground
  {
    os.(posted := os.posted + [m])
  }

  /** `SetCursorPos(p)`: the cursor moves and the move is logged. */
  function SetCursor(os: Os, p: Point): (r: Os)
    ensures r.cursor == p && r.injected == os.injected + [CursorTo(p)]
    ensures r.windows == os.windows && r.posted == os.posted && r.foreground == os.foreground
  {
    os.(cursor := p, injected := os.injected + [CursorTo(p)])
  }

  /** One injected mouse record (`mouse_event` or `SendInput`); the cursor is not moved. */
  function Inject(os: Os, e: HwEvent): (r: Os)
    ensures r.injected == os.injected + [e]
    ensures r.windows == os.windows && r.posted == os.posted
    ensures r.foreground == os.foreground && r.cursor == os.cursor
  {
    os.(injected := os.injected + [e])
  }
}
