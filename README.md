# Background input for a game window — a Dafny model

This project models the Windows background-input layer of Game_Script. The layer drives a game
window that may sit on a second (virtual) screen, without stealing the user's foreground mouse
and keyboard. The model covers five parts:

- **Display topology** (`virtual_display.dfy`, module `VirtualDisplay`):
  - the displays are refreshed from the primary screen's metrics;
  - a virtual screen is synthesised to the right of the primary screen;
  - a window is located by the display that contains its centre;
  - windows are moved onto a display, activated and looked up by title.
- **Game-window cache** (`game_window_manager.dfy`, module `GameWindows`):
  - the cache holds the visible, titled, top-level windows larger than 100×100 pixels;
  - lookups are case-insensitive on title and class;
  - a window info lookup falls through the cache to the OS and fills the cache;
  - a game window can be moved to the virtual or the main screen.
- **Independent mouse** (`independent_mouse.dfy`, module `Mouse`):
  - choosing the target display;
  - `SendInput` encoding to absolute device units `0..65535` relative to the target display;
  - moves and clicks posted as window messages;
  - the cursor-teleport click that restores the user's cursor.
- **Background window device** (`background_windows.dfy`, module `Background`):
  - binding a window handle and its display;
  - `touch`, which turns a position into a client-area point and clicks it with four posted messages;
  - a failure counter that escalates permanently to the `SendInput` teleport click after three consecutive failures;
  - key events through a fixed key map;
  - typing as one `WM_CHAR` per character.
- **Performance monitor** (`performance_monitor.dfy`, module `Performance`):
  - operation counters;
  - bounded duration histories that drop their oldest entry;
  - averages, and grades bucketed from the averages.

Shared modules:

- `Wrappers` holds `Option`.
- `Text` holds the ASCII `lower` and substring test.
- `Win32` holds the desktop as a value `Os`. That value carries:
  - the windows in enumeration order;
  - the foreground window;
  - the cursor;
  - a log of posted messages;
  - a log of injected hardware events.
- `LParam` holds Python's `|` on unbounded integers and the `MAKELPARAM`-style packing `y << 16 | x`.

OS calls that can fail are parameters of the operations:

- `okPosts` is the number of `PostMessage` calls that succeed before one raises.
- `sendOk` / `okSends` say whether `SendInput` calls succeed.
- `HwFaults(failAt, restoreOk)` is for the teleport click. `failAt` names the hardware call that raises:
  - 0: reading the cursor;
  - 1: the jump;
  - 2: button down;
  - 3: button up;
  - 4: the restore.

  `restoreOk` says whether the cleanup's restore succeeds.

Clock readings enter as parameters: `now` and the measured `elapsed`. System metrics enter as an
`Option<Metrics>`, where `None` means the metrics call raised. Each class keeps the fields its
Python counterpart updates.

Where the code departs from what its names and comments suggest, the model follows the code:

- Device units are truncated (`int(...)`), not rounded. The centre of a 1920-wide virtual screen at x = 2880 encodes to 32767 (`Mouse.VirtualCentreTruncates`).
- A display refresh whose metrics call raises leaves no displays at all, and no synthesised virtual screen (`VirtualDisplay.RefreshFailureLeavesNothing`).
- The embedded-window helper clamps to `[0, width]`, but `touch` clamps to `[0, width - 1]` (`Background.ClampsDifferAtEdge`).
- The `SendInput` retry inside `touch` uses the raw position, not the client point computed for the messages (`Background.RetryUsesRawPosition`).
- `activate_window` maximises the window after it was moved, so the maximised rectangle, not the move, decides which screen the game ends up on (`GameWindows.MaximisedGameOnVirtualScreen`).
- `send_mouse_input` with no target display still injects the event, and then reports failure.
- A client x in -65536 <= x < 0 packed into an lParam swallows y (`LParam.PackNegativeX`).

## Model

| member | source | states |
|---|---|---|
| Text.Lower | game_window_manager.py:86-89 | `str.lower` on ASCII: same length, each upper-case letter shifted by 32 and every other character kept |
| Text.LowerIdempotent | game_window_manager.py:86-89 | lower-casing twice equals lower-casing once, so lower-cased patterns compare like the originals |
| Text.ContainsIffOccurs | game_window_manager.py:86-89 | Python's `needle in haystack`: true iff the needle equals the slice of the haystack at some position |
| Win32.TopLevel | game_window_manager.py:67 | `EnumWindows` visits exactly the windows without the `WS_CHILD` style, so owned pop-ups (whose `GetParent` is their owner) are enumerated too |
| Win32.MoveWindowSetsRect | virtual_display.py:191-196 | after `MoveWindow` an existing window is still found and its rectangle is exactly (x, y, x+w, y+h) |
| Win32.ShowMaximizedSetsRect | virtual_display.py:227 | after `ShowWindow(SW_SHOWMAXIMIZED)` an existing window is still found, visible, with the maximised rectangle |
| LParam.PackRoundTrip | background_windows.py:409 | for 0 <= x < 65536, `y << 16 \| x` equals y·65536 + x, so the low word decodes to x and the high part to y |
| LParam.PackNegativeX | independent_mouse.py:383 | for -65536 <= x < 0 the packed lParam equals x: the y coordinate is lost |
| VirtualDisplay.Centre | virtual_display.py:161-164 | the floor-divided centre of a non-empty rectangle lies inside it (right and bottom edges excluded) |
| VirtualDisplay.FirstContaining | virtual_display.py:167-172 | None iff no display contains the point; otherwise the first display in order that contains it |
| VirtualDisplay.IsPointInDisplay | virtual_display.py:133-144 | a point is contained only by a display of positive size, and then lies in its rectangle with the right and bottom edges excluded |
| VirtualDisplay.Refresh | virtual_display.py:40-107 | a main display exists iff the metrics call succeeded, and a virtual one iff a main one does; both are among the displays, the main one primary and the virtual one not |
| VirtualDisplay.WindowDisplay | virtual_display.py:146-178 | the answer is one of the displays or the main one, and never None while a main display exists |
| VirtualDisplay.Activated | virtual_display.py:217-234 | an existing window ends visible with the maximised rectangle; it becomes the foreground window iff it exists and the request is granted; the cursor and both logs are unchanged |
| VirtualDisplay.FindWindowExact | virtual_display.py:245-246 | `FindWindow` compares whole titles without regard to letter case: 0 iff no top-level window's title equals the text up to case; otherwise the handle of the first such window in enumeration order |
| VirtualDisplay.FindWindowIgnoresCase | virtual_display.py:245-246 | the letter case of the searched title never changes the window `FindWindow` answers |
| VirtualDisplay.RefreshYieldsMainAndVirtual | virtual_display.py:40-107 | a successful refresh gives exactly two displays: the primary at (0,0) with the metrics' size, and a non-primary virtual one |
| VirtualDisplay.SynthesizedBesideMain | virtual_display.py:89-106 | the synthesised screen has id 1, starts at the primary's width, copies its size, refresh rate and depth, is not attached and differs from the primary |
| VirtualDisplay.RefreshFailureLeavesNothing | virtual_display.py:44-83 | when the metrics call raises, there are no displays and neither a main nor a virtual one |
| VirtualDisplay.DisplaysTileDoubleScreen | virtual_display.py:133-144 | every point of the double-width strip lies on the primary screen left of its width and on the virtual screen from there |
| VirtualDisplay.WindowDisplayTotal | virtual_display.py:146-178 | with a main display the lookup always yields a display, and one that contains the window's centre whenever any does |
| VirtualDisplay.MovedWindowIsOnVirtual | virtual_display.py:203-215 | after moving a window to the virtual screen's rectangle, the window-display lookup answers the virtual screen |
| VirtualDisplay.TitleMatchesFirst | virtual_display.py:247-259 | the substring search answers 0 iff no visible window's title contains the text, otherwise the first such window in enumeration order |
| VirtualDisplay.VirtualDisplayManager.constructor | virtual_display.py:31-38 | a new manager holds the topology of a first refresh |
| VirtualDisplay.VirtualDisplayManager.UpdateDisplaysInfo | virtual_display.py:40-107 | the displays, main and virtual fields are reset and then set to the refresh result |
| VirtualDisplay.VirtualDisplayManager.GetWindowDisplay | virtual_display.py:146-178 | answers the display holding the window's centre, or the main display for an unknown window or no match; the answer is one of the displays or the main one |
| VirtualDisplay.VirtualDisplayManager.MoveWindowToDisplay | virtual_display.py:180-201 | succeeds iff the window exists, and then the window's rectangle is the display's rectangle; on failure the desktop is unchanged |
| VirtualDisplay.VirtualDisplayManager.MoveWindowToVirtualDisplay | virtual_display.py:203-215 | fails without a virtual screen; otherwise it moves the window onto the virtual screen's rectangle |
| VirtualDisplay.VirtualDisplayManager.ActivateWindow | virtual_display.py:217-234 | the window is shown maximised (found, visible, with the maximised rectangle), then brought to the foreground; True iff the window exists and the foreground request is granted, and an unknown handle changes nothing |
| VirtualDisplay.CollectTitleMatches | virtual_display.py:249-258 | the enumeration callback collects, in enumeration order, exactly the visible windows whose title contains the text |
| VirtualDisplay.VirtualDisplayManager.FindWindowByTitle | virtual_display.py:236-259 | exact match answers the first top-level window whose whole title equals the text up to letter case, or 0; otherwise the first visible top-level window whose title contains the text, or 0 |
| GameWindows.Get | game_window_manager.py:101-134 | a dict lookup: present keys give their stored entry, absent keys give None |
| GameWindows.Put | game_window_manager.py:128-130 | a dict store: the key then maps to the value; an existing key keeps its place, and a new key is appended |
| GameWindows.PutKeepsOthers | game_window_manager.py:128-130 | storing under one handle leaves every other handle's lookup unchanged |
| GameWindows.PutEntries | game_window_manager.py:128-130 | a store adds no entry other than the stored one |
| GameWindows.PutKeepsKeysDistinct | game_window_manager.py:55-64 | a store into a dict with distinct keys keeps them distinct and adds at most one entry |
| GameWindows.Cache | game_window_manager.py:37-69 | the cache has at most one entry per enumerated window |
| GameWindows.CacheKeysDistinct | game_window_manager.py:37-69 | no handle is cached twice: the dictionary keys of the rebuilt cache are pairwise distinct |
| GameWindows.MatchingHandles | game_window_manager.py:84-99 | there are no more matches than cached entries |
| GameWindows.MatchingHandlesSound | game_window_manager.py:84-99 | every listed match is the handle of a cached entry whose title (and class) contains the pattern |
| GameWindows.MatchingHandlesComplete | game_window_manager.py:84-99 | every cached entry that matches has its handle listed |
| GameWindows.CollectMatches | game_window_manager.py:83-93 | the loop over the cache collects exactly the matching handles, in cache order |
| GameWindows.CacheEntriesQualify | game_window_manager.py:37-69 | every cached entry comes from a visible, titled window larger than 100×100 and holds that window's info |
| GameWindows.CachedInfoIsLarge | game_window_manager.py:55-64 | a cached window has a non-empty title and a width and height above 100 |
| GameWindows.CacheHasQualifying | game_window_manager.py:43-66 | every qualifying window (last of its handle) is in the cache with its info |
| GameWindows.MatchingFirst | game_window_manager.py:84-99 | the search answers 0 iff no cached window matches, otherwise the first matching one in cache order |
| GameWindows.MatchIgnoresPatternCase | game_window_manager.py:86-89 | the pattern's letter case never changes whether a window matches |
| GameWindows.MaximisedGameOnVirtualScreen | game_window_manager.py:159-164 | after the move to the virtual screen and the activation, the game counts as on the virtual screen iff the centre of its maximised rectangle lies on the virtual display |
| GameWindows.GameWindowManager.constructor | game_window_manager.py:30-35 | a new manager starts with a fresh cache of qualifying windows |
| GameWindows.GameWindowManager.UpdateGameWindows | game_window_manager.py:37-69 | the cache is rebuilt from the current top-level windows |
| GameWindows.GameWindowManager.FindGameWindow | game_window_manager.py:71-99 | rebuilds the cache, then answers the first matching handle or 0 |
| GameWindows.GameWindowManager.GetWindowInfo | game_window_manager.py:101-134 | a cache hit answers the cached info; a miss on a visible window reads the OS and caches it; otherwise None and no change |
| GameWindows.GameWindowManager.MoveGameToVirtualScreen | game_window_manager.py:136-168 | a title that finds nothing fails with nothing changed; otherwise the displays refresh, and the call succeeds iff a virtual screen exists and the window does; then the window is moved onto the virtual screen and activated (shown maximised, foreground when granted), and the activation's own result is ignored |
| GameWindows.GameWindowManager.MoveGameToMainScreen | game_window_manager.py:170-202 | as above, for the main display: success iff a main display exists and the window does, and the end state is the move followed by the activation |
| GameWindows.GameWindowManager.GetWindowDisplay | game_window_manager.py:204-213 | refreshes the displays and answers the window's display |
| GameWindows.GameWindowManager.IsWindowOnVirtualScreen | game_window_manager.py:215-224 | true iff the window's display exists and is not the primary |
| Mouse.ParseInputMode | independent_mouse.py:355-365 | only "postmessage" and "sendinput" are accepted modes |
| Mouse.ClampOffset | independent_mouse.py:239-240 | `max(0, min(t, size))`: a negative offset gives 0, an offset at or past a non-negative size gives size, and an offset inside is kept |
| Mouse.Scale | independent_mouse.py:235-244 | the device unit is the truncation of offset·65535/size: within 0..65535 and bracketing the exact quotient |
| Mouse.Encode | independent_mouse.py:222-250 | relative flags pass (dx, dy) through; absolute flags fail iff there is no target or it has a zero side, and with a positive-size target give units in 0..65535 |
| Mouse.DefaultTarget | independent_mouse.py:212-218 | a chosen target is kept; without one, the main display when there is no foreground window, else the foreground window's display, which exists whenever a main display does |
| Mouse.HardwareClickLog | independent_mouse.py:319-336 | the records of a click without a window: nothing when the move cannot be encoded, only the move when there is no target display, otherwise the move, press and release up to the first failed call; always a prefix of the full click |
| Mouse.HardwareClickLeavesButtonDown | independent_mouse.py:326-333 | the button is left pressed (press injected, release not) exactly when the move and press reached a target display and the release failed |
| Mouse.TeleportLog | independent_mouse.py:445-492 | the records of the teleport click under a fault: at most four, and ending with the jump home whenever the cursor was read and either nothing failed or the restore works |
| Mouse.AsWrittenLog | independent_mouse.py:470-483 | the records of the click as written: at most three, ending with the jump home whenever the cursor was read and the restore works |
| Mouse.TeleportReleasesIffUpSucceeds | independent_mouse.py:470-483 | with the delay working, a button-up is injected iff every call up to the release succeeded |
| Mouse.AsWrittenDiffersAfterPress | independent_mouse.py:476 | the as-written and the intended click leave the same records iff a call fails at or before the release |
| Mouse.FirstWithId | independent_mouse.py:170-178 | the first display with the requested id, or None iff no display has it |
| Mouse.ScaleMonotone | independent_mouse.py:235-244 | a point further right or down never encodes to a smaller device unit |
| Mouse.ScaleEdges | independent_mouse.py:235-244 | the display origin encodes to 0, and anything at or beyond the far edge to 65535 |
| Mouse.VirtualCentreTruncates | independent_mouse.py:243-244 | the centre of a 1920×1080 virtual screen to the right of the primary encodes to (32767, 32767) |
| Mouse.AsWrittenLeavesButtonDown | independent_mouse.py:470-483 | as written, no button-up is ever injected, and once the press got through the button-down is in the log: the button is left pressed |
| Mouse.IndependentMouse.constructor | independent_mouse.py:75-92 | no target display, post-message mode, and main/virtual displays from a first refresh |
| Mouse.IndependentMouse.UpdateDisplayInfo | independent_mouse.py:346-353 | refreshes the displays and copies main and virtual; target and mode are unchanged |
| Mouse.IndependentMouse.SetTargetDisplay | independent_mouse.py:164-183 | a display value is taken as is; an id picks the first display with that id and is ignored when none has it |
| Mouse.IndependentMouse.SetTargetDisplayToVirtual | independent_mouse.py:185-191 | the target becomes the virtual display |
| Mouse.IndependentMouse.SetTargetDisplayToMain | independent_mouse.py:193-198 | the target becomes the main display, assigned before the log line, which raises iff there is no main display |
| Mouse.IndependentMouse.SetInputMode | independent_mouse.py:355-365 | a valid mode is stored; any other string leaves the mode unchanged |
| Mouse.IndependentMouse.SendMouseInput | independent_mouse.py:200-275 | defaults the target, encodes, and injects exactly one event when SendInput succeeds; success also needs a target; absolute units stay within 0..65535 |
| Mouse.IndependentMouse.MoveMouseWithMessage | independent_mouse.py:427-443 | an unknown window raises; otherwise it posts one `WM_MOUSEMOVE` at the window-relative point |
| Mouse.IndependentMouse.MoveMouse | independent_mouse.py:277-297 | post-message mode with a window raises for an unknown window and otherwise posts one `WM_MOUSEMOVE` at (x - left, y - top), returning the post's success, injecting nothing and keeping the target; otherwise it is one `SendMouseInput` with the move flags |
| Mouse.IndependentMouse.Click | independent_mouse.py:299-336 | with a window, it posts button down and up at the window-relative point; without one, it succeeds iff move, down and up are all accepted, and the injected log grows by exactly the calls made before the first failure (`HardwareClickLog`), the earlier log kept; posts, windows, cursor and foreground are unchanged |
| Mouse.IndependentMouse.SendMouseMessage | independent_mouse.py:367-391 | posts one message whose default lParam decodes back to (x, y) |
| Mouse.IndependentMouse.ClickWithMessage | independent_mouse.py:393-425 | posts the down/up pair at the window-relative point; success iff both posts succeed |
| Mouse.IndependentMouse.ClickBackgroundFallback | independent_mouse.py:445-492 | success iff every hardware call succeeds; the injected records are exactly the teleport log for the fault, and the cursor ends where it was unless a fault after the jump came with a failing restore, when it is left at the click point |
| Mouse.IndependentMouse.ClickBackgroundFallbackAsWritten | independent_mouse.py:445-492 | the code as written never succeeds; the injected records are exactly the as-written log, and the cursor is left at the click point only when the jump succeeded and the restore fails |
| Background.TouchPoint | background_windows.py:279-292 | a list or tuple, or a template's match result, yields a point iff it has exactly two coordinates, and then exactly that point; a position given as a mapping yields no point |
| Background.ScreenCoords | background_windows.py:116-143 | wherever `touch` reads a point itself, the helper yields the same point; a mapping with x and y yields that pair, and one without them its `result` entry |
| Background.ToClient | background_windows.py:295-312 | an embedded window's point is kept; otherwise adding the client origin (or the window origin when `ScreenToClient` raises) gives back the screen point |
| Background.TouchClientPoint | background_windows.py:262-321 | a client point exists iff the window is known and the position unpacks into two coordinates |
| Background.ClickMessages | background_windows.py:405-430 | four messages to the window: move (wParam 0), button down with its key-state flag, button up (wParam 0), leave (wParam and lParam 0); the first three carry `y << 16 \| x`, which decodes to (x, y) for 0 <= x < 65536 and equals x itself for -65536 <= x < 0 |
| Background.AfterTouch | background_windows.py:336-360 | one touch keeps the binding valid (counter at most the limit, and at the limit exactly after escalation); SendInput never changes, a post success resets the counter and a failure adds one |
| Background.ClampTouch | background_windows.py:314-321 | `max(0, min(v, size - 1))` outside [0, size): a negative coordinate gives 0, one at or past a positive size gives size - 1, and one inside is kept |
| Background.EmbeddedWindowCoords | background_windows.py:214-243 | for a known window each coordinate is kept inside [0, client size], becomes 0 below it and the client size above it; without a window, a coordinate pair or a known handle the unconverted value comes back |
| Background.CharMessages | background_windows.py:619-623 | one `WM_CHAR` per character of the text, in order, carrying that character |
| Background.KeyCode | background_windows.py:546-595 | a key name resolves iff its lower-cased form is in the key map |
| Background.LetterKeyCode | background_windows.py:547-572 | each lower-case letter maps to its virtual-key code 0x41 + its offset from 'a' |
| Background.UpperLetterKeyCode | background_windows.py:595 | an upper-case letter maps to the same code as its lower-case form |
| Background.DigitKeyCode | background_windows.py:573-582 | each digit maps to 0x30 + its value |
| Background.EnterIsReturn | background_windows.py:583-584 | "enter" and "return", in any letter case, both map to 0x0D |
| Background.UnknownKeyCode | background_windows.py:546-595 | no key name of length 7, 8 or above 9 is in the map |
| Background.SendInputIsSticky | background_windows.py:367-388 | once escalated to SendInput, no sequence of touches returns to PostMessage |
| Background.EscalationCharacterised | background_windows.py:336-360 | starting from PostMessage, a run of touches ends in SendInput iff some run of consecutive failures reached the limit; otherwise the counter equals the trailing failure run, below the limit |
| Background.ThreeFailuresEscalate | background_windows.py:336-360 | two failures keep PostMessage, three escalate, and a success in between resets the count |
| Background.TouchPointInClient | background_windows.py:295-321 | the click point lies in the client area, and it equals the raw client point whenever that is already inside |
| Background.TouchLParamDecodes | background_windows.py:409 | the packed lParam of a touch decodes back to its client point |
| Background.RetryUsesRawPosition | background_windows.py:349-352 | the retry reads the same point as the touch; for a non-embedded window whose point lies inside the client area, that screen point is the client point plus the client origin, and differs from it whenever the origin is not (0, 0) |
| Background.ClampsDifferAtEdge | background_windows.py:314-321 | at x equal to the width, the embedded helper keeps x, while touch clamps it to width - 1 |
| Background.BackgroundWindows.constructor | background_windows.py:38-65 | no window, not embedded, post-message clicks with a zero failure count |
| Background.BackgroundWindows.InitHwnd | background_windows.py:67-114 | binds the handle, marks it embedded iff it has a parent, locates its display and aims the mouse there; the escalation state and the mouse's mode and displays are kept |
| Background.BackgroundWindows.BindDisplay | background_windows.py:95-114 | refreshes the displays; the window is on the virtual screen iff its display is not primary; the mouse target follows a found display; the mouse's mode and displays are kept |
| Background.BackgroundWindows.SendClickMessage | background_windows.py:395-437 | posts move, down, up and leave in that order; success iff all four posts succeed |
| Background.BackgroundWindows.SendInputClick | background_windows.py:439-455 | the teleport click: success iff every hardware call succeeds; the injected records are the teleport log, and the cursor comes back unless a fault after the jump came with a failing restore |
| Background.BackgroundWindows.SendInputClickAsWritten | background_windows.py:439-455 | over the click as written: never succeeds, and the injected records are the as-written log |
| Background.BackgroundWindows.Touch | background_windows.py:245-393 | no window delegates; a position with no client point fails with no change; otherwise posts the four messages, steps the escalation state, and whenever the teleport click is selected afterwards (escalated now or before) injects exactly the teleport log at the raw position with the cursor restored as the fault allows; the duration is recorded exactly on success, and no other monitor field changes |
| Background.BackgroundWindows.TouchAt | background_windows.py:324-388 | one click attempt through the current method and the state machine step `AfterTouch`; the posted messages are the sent prefix, the teleport log at the raw point is injected exactly when the teleport click is selected afterwards, and the monitor records the touch exactly on success, its other fields kept |
| Background.BackgroundWindows.SendInputMouse | background_windows.py:469-519 | an unknown window or a failed cursor read raises; otherwise the injected log grows by exactly `TeleportLog` at the window-relative screen point (the whole click when nothing fails, else the records before the fault and the jump home); a failed clean-up restore raises and leaves the cursor on the target, a working one returns False with the cursor restored; windows, posts and foreground are unchanged |
| Background.BackgroundWindows.SendKeyMessage | background_windows.py:521-531 | posts one key-down or key-up with the key code |
| Background.BackgroundWindows.KeyEvent | background_windows.py:533-604 | no window, or an unknown or zero key code, delegates; otherwise it posts key-down then key-up |
| Background.BackgroundWindows.Type | background_windows.py:606-628 | posts one `WM_CHAR` per character; a failing post delegates to the inherited implementation |
| Performance.LastN | performance_monitor.py:38-39 | the last n values in order, or all of them when there are fewer |
| Performance.BoundedAppend | performance_monitor.py:94-95 | appending to a full deque drops the oldest value; otherwise the value is appended |
| Performance.AppendAllKeepsLast | performance_monitor.py:88-97 | after any number of appends, the deque holds exactly the last n values ever appended |
| Performance.Average | performance_monitor.py:141-159 | 0.0 for an empty history, otherwise the value that times the count gives the sum |
| Performance.AverageBounds | performance_monitor.py:151-159 | an average lies between any lower and upper bound of the recorded values |
| Performance.TouchGrade | performance_monitor.py:235-249 | excellent iff at most 0.1 s, good iff in (0.1, 0.2], fair iff in (0.2, 0.5], poor iff above 0.5 s |
| Performance.SnapshotGrade | performance_monitor.py:219-233 | excellent iff at most 0.5 s, good iff in (0.5, 1.0], fair iff in (1.0, 2.0], poor iff above 2.0 s |
| Performance.TouchGradeMonotone | performance_monitor.py:235-249 | a slower average never receives a better touch grade |
| Performance.SnapshotGradeMonotone | performance_monitor.py:219-233 | a slower average never receives a better snapshot grade |
| Performance.EmptyHistoryIsExcellent | performance_monitor.py:141-159 | with no history, both grades are excellent |
| Performance.PerformanceMonitor.constructor | performance_monitor.py:30-47 | counters at zero, empty histories, not started |
| Performance.PerformanceMonitor.StartMonitoring | performance_monitor.py:49-54 | records the start time and nothing else |
| Performance.PerformanceMonitor.AverageSnapshotTime | performance_monitor.py:141-149 | 0.0 with no snapshots, otherwise their mean |
| Performance.PerformanceMonitor.AverageTouchTime | performance_monitor.py:151-159 | 0.0 with no touches, otherwise their mean |
| Performance.PerformanceMonitor.StopMonitoring | performance_monitor.py:56-72 | no report iff never started; otherwise the elapsed time, the counters, the averages and their grades |
| Performance.PerformanceMonitor.RecordSnapshot | performance_monitor.py:74-86 | the snapshot count grows by one and the history keeps the last values; nothing else changes |
| Performance.PerformanceMonitor.RecordTouch | performance_monitor.py:88-97 | the touch count grows by one and the history keeps the last values; nothing else changes |
| Performance.PerformanceMonitor.RecordError | performance_monitor.py:99-107 | the error count grows by one; nothing else changes |
| Performance.PerformanceMonitor.RecordWarning | performance_monitor.py:109-117 | the warning count grows by one; nothing else changes |

## Left out

- `snapshot` (screen capture and image encoding): the pixel data and image libraries are outside the model.
- `install_mouse_hook` / `uninstall_mouse_hook`: the low-level hook procedure and its message loop run on another thread. `get_virtual_mouse_pos` only reads the state that hook keeps.
- `_send_double_click_message`: nothing in the modelled core calls it.
- `maximize_window` and `close_window` in game_window_manager.py: one-call wrappers around `ShowWindow`/`PostMessage(WM_CLOSE)`, with no state or decision.
- `get_displays`, `get_main_display`, `get_virtual_display`, `get_window_title`: plain accessors, modelled as reads of the fields.
- `_record_resource_usage`, memory/CPU averages, resource efficiency, overall score and the report's text layout: process memory and CPU come from a system library.
- Sleeps and the `duration`/`steps` arguments change only timing, so they are not modelled. Logging is also not modelled.
- Concurrency: the module-level monitor and hook thread are treated as used from one thread.
- Clock values are parameters: `StartMonitoring(now)`, `StopMonitoring(now)`, and the measured `elapsed` of a touch.
- `Mouse.Scale`: the source computes `int(offset / size * 65535)` in floating point. The model uses exact integer truncation of offset·65535/size, which differs only by rounding error in the last place.
- Averages are Python floats; the model uses exact `real` arithmetic.
- `Text.Lower`: only ASCII letters are lower-cased. Unicode case mapping is not modelled.
- `Win32.MoveWindow`: only the window rectangle changes; the client size is not recomputed. Injected `SendInput` moves do not move the modelled cursor.
- `LParam.PackRoundTrip`: lParam is an unbounded integer; the 32-bit truncation of `LPARAM`/`WPARAM` is not modelled.
- Calls to the inherited foreground `Windows` implementation are modelled as the outcome `Delegated`, without effects.
- `Background.TouchPoint`: a dict position is modelled as no point. In the source `tuple(pos)` at background_windows.py:288 gives the dict's keys; a two-key dict unpacks into two key strings, and the touch then fails later, at `int('x')` (lines 297-298) for an embedded window or at `ScreenToClient` and the fallback subtraction (lines 304-310) otherwise. A dict of any other size fails at the unpacking. Either way `touch` returns False, as in the model.
- `Background.TouchPoint`: positions hold integers only. The `int()` truncation of fractional coordinates for embedded windows (background_windows.py:297-298) is not modelled, and neither is a fractional point reaching `y << 16 | x` (line 409), where the `TypeError` counts as a failed post.
- `VirtualDisplay.VirtualDisplayManager.ActivateWindow`: the rectangle `SW_SHOWMAXIMIZED` gives the window (the monitor's work area) is a parameter, not computed; whether `SetForegroundWindow` is granted is a parameter too.
- `Background.BackgroundWindows.SendInputClick`, `Background.BackgroundWindows.Touch` and `Background.BackgroundWindows.TouchAt` use the corrected teleport click (see Findings). Over the click as written (`Background.BackgroundWindows.SendInputClickAsWritten`) every teleport click fails, so every escalated or SendInput-mode touch fails.
- `Background.UnknownKeyCode`: stated only for key names whose length is 7, 8 or above 9; names of the other lengths that are not in the map are not covered by a lemma.

## Findings

| source | as written | input that shows it | evidently intended | confidence | as-written member | corrected member |
|---|---|---|---|---|---|---|
| independent_mouse.py:476 | `time.sleep(0.02)` between button-down and button-up, but the module's imports (lines 7-13) never import `time`. The `NameError` is caught, the cursor is restored, False is returned, and the button is left pressed, so the `SendInput` escalation of `touch` never succeeds | working hardware (`failAt >= 5`) returns False; any call whose cursor read, jump and press succeed (`failAt >= 3`) leaves the button down (`Mouse.AsWrittenLeavesButtonDown`, `Mouse.AsWrittenDiffersAfterPress`, `Background.BackgroundWindows.SendInputClickAsWritten`) | pause, release the button, restore the cursor and return True | not executed | Mouse.IndependentMouse.ClickBackgroundFallbackAsWritten | Mouse.IndependentMouse.ClickBackgroundFallback |
