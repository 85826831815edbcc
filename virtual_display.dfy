/**
 * Display topology: the list of displays (the primary one from the screen metrics plus a
 * synthesized, unattached display to its right), point and window location, moving a
 * window onto a display, and finding a window by title.
 */
module VirtualDisplay {
  import opened Wrappers
  import opened Win32
  import opened Text

  datatype Display = Display(
    id: int, name: string, deviceString: string, isPrimary: bool,
    left: int, top: int, width: int, height: int,
    refreshRate: int, bitDepth: int, isAttached: bool)

  /** `GetSystemMetrics(SM_CXSCREEN)` and `GetSystemMetrics(SM_CYSCREEN)`. */
  datatype Metrics = Metrics(width: int, height: int)

  /** What a refresh leaves behind: the display list and the two distinguished entries. */
  datatype Topology = Topology(displays: seq<Display>, main: Option<Display>, virtualDisplay: Option<Display>)

  /** The primary display built from the screen metrics (refresh rate and depth assumed). */
  function PrimaryDisplay(m: Metrics): Display
  {
    Display(0, "\\.\\DISPLAY1", "主显示器", true, 0, 0, m.width, m.height, 60, 32, true)
  }

  /** The default virtual display: same size as `main`, placed immediately to its right. */
  function SynthesizedDisplay(main: Display, id: int): Display
  {
    Display(id, "\\.\\DISPLAY2", "默认虚拟屏幕", false, main.width, 0, main.width, main.height,
            main.refreshRate, main.bitDepth, false)
  }

  /** The topology `update_displays_info` rebuilds from scratch; `None` metrics stand for
      the metrics query raising. */
  function Refresh(metrics: Option<Metrics>): (t: Topology)
    ensures t.main.Some? <==> metrics.Some?
    ensures t.virtualDisplay.Some? <==> t.main.Some?
    ensures t.main.Some? ==> t.main.value in t.displays && t.main.value.isPrimary
    ensures t.virtualDisplay.Some? ==> t.virtualDisplay.value in t.displays && !t.virtualDisplay.value.isPrimary
  {
    match metrics
    case None => Topology([], None, None)
    case Some(m) =>
      var main := PrimaryDisplay(m);
      // The synthesized display's id is the length of the list at that moment.
      var v := SynthesizedDisplay(main, |[main]|);
      Topology([main, v], Some(main), Some(v))
  }

  function PrimaryCount(ds: seq<Display>): nat
  {
    if ds == [] then 0 else (if ds[0].isPrimary then 1 else 0) + PrimaryCount(ds[1..])
  }

  /** The rectangle of a display, as `MoveWindow` would lay a window over it. */
  function DisplayRect(d: Display): Rect
  {
    Rect(d.left, d.top, d.left + d.width, d.top + d.height)
  }

  /** The half-open containment test left <= x < left + width, top <= y < top + height. */
  function IsPointInDisplay(p: Point, d: Display): (b: bool)
    ensures b ==> d.width > 0 && d.height > 0
    ensures b ==> DisplayRect(d).left <= p.x < DisplayRect(d).right && DisplayRect(d).top <= p.y < DisplayRect(d).bottom
  {
    d.left <= p.x < d.left + d.width && d.top <= p.y < d.top + d.height
  }

  /** The window's floor-centre `((l + r) // 2, (t + b) // 2)`. */
  function Centre(r: Rect): (c: Point)
    ensures r.left <= r.right ==> r.left <= c.x <= r.right
    ensures r.top <= r.bottom ==> r.top <= c.y <= r.bottom
    ensures r.left < r.right ==> c.x < r.right
    ensures r.top < r.bottom ==> c.y < r.bottom
  {
    Point((r.left + r.right) / 2, (r.top + r.bottom) / 2)
  }

  /** ds[k] is the first display of the list that contains p. */
  predicate FirstAt(ds: seq<Display>, p: Point, k: int)
  {
    0 <= k < |ds| && IsPointInDisplay(p, ds[k]) && forall j :: 0 <= j < k ==> !IsPointInDisplay(p, ds[j])
  }

  /** The first display in list order that contains p. */
  function FirstContaining(ds: seq<Display>, p: Point): (r: Option<Display>)
    ensures r.None? <==> forall j :: 0 <= j < |ds| ==> !IsPointInDisplay(p, ds[j])
    ensures r.Some? ==> exists k :: FirstAt(ds, p, k) && ds[k] == r.value
  {
    if ds == [] then None
    else if IsPointInDisplay(p, ds[0]) then Some(ds[0])
    else
      var r := FirstContaining(ds[1..], p);
      assert forall j :: 1 <= j < |ds| ==> ds[j] == ds[1..][j - 1];
      assert r.Some? ==> exists k :: FirstAt(ds[1..], p, k) && ds[1..][k] == r.value;
      assert forall k :: FirstAt(ds[1..], p, k) ==> FirstAt(ds, p, k + 1);
      r
  }

  /** `get_window_display`: the display holding the window's centre; the main display when
      the handle is not a window or no display holds the centre. */
  function WindowDisplay(t: Topology, os: Os, hwnd: int): (r: Option<Display>)
    ensures r.Some? ==> r.value in t.displays || r == t.main
    ensures t.main.Some? ==> r.Some?
  {
    match Find(os, hwnd)
    case None => t.main
    case Some(w) =>
      match FirstContaining(t.displays, Centre(w.rect))
      case Some(d) => Some(d)
      case None => t.main
  }

  /** Handles of the visible windows whose title contains `title`, in enumeration order. */
  function TitleMatches(ws: seq<Window>, title: string): seq<int>
  {
    if ws == [] then []
    else
      var last := ws[|ws| - 1];
      TitleMatches(ws[..|ws| - 1], title) + (if last.visible && Contains(last.title, title) then [last.hwnd] else [])
  }

  /** The enumeration callback of the fuzzy search: collects, in order, the visible windows
      whose title contains `title`. */
  method CollectTitleMatches(ws: seq<Window>, title: string) returns (matching: seq<int>)
    ensures matching == TitleMatches(ws, title)
  {
    matching := [];
    var i := 0;
    while i < |ws|
      invariant 0 <= i <= |ws|
      invariant matching == TitleMatches(ws[..i], title)
    {
      assert ws[..i + 1][..i] == ws[..i];
      if ws[i].visible && Contains(ws[i].title, title) {
        matching := matching + [ws[i].hwnd];
      }
      i := i + 1;
    }
    assert ws[..|ws|] == ws;
  }

  /** Window titles as `FindWindow` compares them: equal apart from letter case. */
  predicate SameTitle(a: string, b: string)
  {
    Lower(a) == Lower(b)
  }

  /** `FindWindow(None, title)`: the first top-level window whose title equals `title` up to
      letter case, or 0. */
  function FindWindowExact(ws: seq<Window>, title: string): (h: int)
    ensures (forall k :: 0 <= k < |ws| ==> !SameTitle(ws[k].title, title)) ==> h == 0
    ensures (exists k :: 0 <= k < |ws| && SameTitle(ws[k].title, title)) ==>
      exists k :: 0 <= k < |ws| && SameTitle(ws[k].title, title) && ws[k].hwnd == h
        && forall j :: 0 <= j < k ==> !SameTitle(ws[j].title, title)
  {
    if ws == [] then 0
    else if SameTitle(ws[0].title, title) then ws[0].hwnd
    else
      var h := FindWindowExact(ws[1..], title);
      assert forall j :: 1 <= j < |ws| ==> ws[j] == ws[1..][j - 1];
      if exists k :: 0 <= k < |ws| && SameTitle(ws[k].title, title) then
        var k :| 0 <= k < |ws[1..]| && SameTitle(ws[1..][k].title, title) && ws[1..][k].hwnd == h
          && forall j :: 0 <= j < k ==> !SameTitle(ws[1..][j].title, title);
        assert SameTitle(ws[k + 1].title, title) && ws[k + 1].hwnd == h;
        assert forall j :: 0 <= j < k + 1 ==> !SameTitle(ws[j].title, title);
        h
      else h
  }

  /** The letter case of the searched title never changes what `FindWindow` answers. */
  lemma {:induction false} FindWindowIgnoresCase(ws: seq<Window>, t1: string, t2: string)
    requires Lower(t1) == Lower(t2)
    ensures FindWindowExact(ws, t1) == FindWindowExact(ws, t2)
  {
    if ws != [] && !SameTitle(ws[0].title, t1) {
      FindWindowIgnoresCase(ws[1..], t1, t2);
    }
  }

  // ---- Properties of the topology ----

  /** A successful refresh yields exactly [main, virtual]; exactly one is primary; main sits
      at the origin with the metrics' size, id 0, attached. */
  lemma RefreshYieldsMainAndVirtual(m: Metrics)
    ensures var t := Refresh(Some(m));
      && |t.displays| == 2 && t.main == Some(t.displays[0]) && t.virtualDisplay == Some(t.displays[1])
      && PrimaryCount(t.displays) == 1
      && t.displays[0].isPrimary && !t.displays[1].isPrimary
      && t.displays[0].id == 0 && t.displays[0].left == 0 && t.displays[0].top == 0
      && t.displays[0].width == m.width && t.displays[0].height == m.height
      && t.displays[0].isAttached
  {
    var ds := Refresh(Some(m)).displays;
    assert ds[1..][1..] == [];
    assert PrimaryCount(ds[1..]) == 0;
  }

  /** The synthesized display: id 1, immediately right of main, same size, refresh rate and
      depth, neither primary nor attached. */
  lemma SynthesizedBesideMain(m: Metrics)
    ensures var t := Refresh(Some(m)); var main := t.displays[0]; var v := t.displays[1];
      && v.id == 1 && v.left == main.width && v.top == 0
      && v.width == main.width && v.height == main.height
      && v.refreshRate == main.refreshRate && v.bitDepth == main.bitDepth
      && !v.isPrimary && !v.isAttached
      && (m.width != 0 ==> DisplayRect(v) != DisplayRect(main))
  {
  }

  /** When the metrics query raises, nothing is left: no displays, no main, no virtual. */
  lemma RefreshFailureLeavesNothing()
    ensures Refresh(None) == Topology([], None, None)
  {
  }

  /** With a non-empty screen, the two displays tile [0, 2w) x [0, h): every point there is
      found, on main left of x = w and on the virtual display from x = w on. */
  lemma DisplaysTileDoubleScreen(m: Metrics, p: Point)
    requires m.width > 0 && m.height > 0
    requires 0 <= p.x < 2 * m.width && 0 <= p.y < m.height
    ensures var t := Refresh(Some(m));
      FirstContaining(t.displays, p) == Some(if p.x < m.width then t.displays[0] else t.displays[1])
  {
    var t := Refresh(Some(m));
    if p.x < m.width {
      assert IsPointInDisplay(p, t.displays[0]);
    } else {
      assert !IsPointInDisplay(p, t.displays[0]);
      assert IsPointInDisplay(p, t.displays[1]);
    }
  }

  /** A display found for a point contains it; with displays present the answer for a
      window is never None. */
  lemma WindowDisplayTotal(t: Topology, os: Os, hwnd: int)
    requires t.main.Some?
    ensures WindowDisplay(t, os, hwnd).Some?
    ensures Find(os, hwnd).Some? && FirstContaining(t.displays, Centre(Find(os, hwnd).value.rect)).Some? ==>
      IsPointInDisplay(Centre(Find(os, hwnd).value.rect), WindowDisplay(t, os, hwnd).value)
  {
  }

  /** Moving a live window onto the synthesized display puts it there: its centre lands in
      the virtual display, which `get_window_display` then reports. */
  lemma MovedWindowIsOnVirtual(m: Metrics, os: Os, hwnd: int)
    requires m.width > 0 && m.height > 0
    requires IsWindow(os, hwnd)
    ensures var t := Refresh(Some(m)); var v := t.virtualDisplay.value;
      WindowDisplay(t, MoveWindow(os, hwnd, v.left, v.top, v.width, v.height), hwnd) == Some(v)
  {
    var t := Refresh(Some(m));
    var v := t.virtualDisplay.value;
    var os' := MoveWindow(os, hwnd, v.left, v.top, v.width, v.height);
    MoveWindowSetsRect(os, hwnd, v.left, v.top, v.width, v.height);
    var c := Centre(Find(os', hwnd).value.rect);
    assert c == Point((m.width + 2 * m.width) / 2, m.height / 2);
    DisplaysTileDoubleScreen(m, c);
  }

  /** `FindWindowByTitle`'s answer in the fuzzy case: nothing matches iff the list of matches
      is empty, and otherwise its head is the first visible window, in enumeration order,
      whose title contains the pattern. */
  lemma {:induction false} TitleMatchesFirst(ws: seq<Window>, title: string)
    ensures TitleMatches(ws, title) == [] <==>
      forall j :: 0 <= j < |ws| ==> !(ws[j].visible && Contains(ws[j].title, title))
    ensures TitleMatches(ws, title) != [] ==>
      exists k :: 0 <= k < |ws| && ws[k].hwnd == TitleMatches(ws, title)[0]
        && ws[k].visible && Contains(ws[k].title, title)
        && forall j :: 0 <= j < k ==> !(ws[j].visible && Contains(ws[j].title, title))
  {
    if ws != [] {
      var init := ws[..|ws| - 1];
      TitleMatchesFirst(init, title);
      assert forall j :: 0 <= j < |init| ==> init[j] == ws[j];
      if TitleMatches(init, title) != [] {
        var k :| 0 <= k < |init| && init[k].hwnd == TitleMatches(init, title)[0]
          && init[k].visible && Contains(init[k].title, title)
          && forall j :: 0 <= j < k ==> !(init[j].visible && Contains(init[j].title, title));
        assert ws[k] == init[k];
      }
    }
  }

  /** The desktop after `activate_window`: maximised over `area`, and in the foreground when
      the system grants it. */
  function Activated(os: Os, hwnd: int, area: Rect, foregroundOk: bool): (r: Os)
    ensures IsWindow(os, hwnd) ==>
      Find(r, hwnd).Some? && Find(r, hwnd).value.rect == area && Find(r, hwnd).value.visible
    ensures r.foreground == (if IsWindow(os, hwnd) && foregroundOk then hwnd else os.foreground)
    ensures r.cursor == os.cursor && r.posted == os.posted && r.injected == os.injected
  {
    var shown := ShowMaximized(os, hwnd, area);
    if IsWindow(os, hwnd) then
      ShowMaximizedSetsRect(os, hwnd, area);
      if foregroundOk then shown.(foreground := hwnd) else shown
    else shown
  }

  class VirtualDisplayManager {
    var displays: seq<Display>
    var virtualDisplay: Option<Display>
    var mainDisplay: Option<Display>

    function Current(): Topology
      reads this
    {
      Topology(displays, mainDisplay, virtualDisplay)
    }

    constructor (metrics: Option<Metrics>)
      ensures Current() == Refresh(metrics)
    {
      displays := [];
      virtualDisplay := None;
      mainDisplay := None;
      new;
      UpdateDisplaysInfo(metrics);
    }

    /** Clears the state and rebuilds it: the result depends on the metrics alone, so two
        refreshes with the same metrics leave identical state. */
    method UpdateDisplaysInfo(metrics: Option<Metrics>)
      modifies this
      ensures Current() == Refresh(metrics)
    {
      displays := [];
      virtualDisplay := None;
      mainDisplay := None;
      match metrics {
        case None =>
        case Some(m) =>
          var main := PrimaryDisplay(m);
          displays := displays + [main];
          mainDisplay := Some(main);
      }
      if virtualDisplay.None? && mainDisplay.Some? {
        var v := SynthesizedDisplay(mainDisplay.value, |displays|);
        displays := displays + [v];
        virtualDisplay := Some(v);
      }
    }

    /** The first display (in list order) holding the window's floor-centre; the main
        display for an invalid handle or when no display holds it. */
    method GetWindowDisplay(hwnd: int, os: Os) returns (d: Option<Display>)
      ensures d == WindowDisplay(Current(), os, hwnd)
      ensures d.Some? && d != mainDisplay ==> d.value in displays
    {
      var w := Find(os, hwnd);
      if w.None? {
        return mainDisplay;
      }
      var c := Centre(w.value.rect);
      var i := 0;
      while i < |displays|
        invariant 0 <= i <= |displays|
        invariant forall j :: 0 <= j < i ==> !IsPointInDisplay(c, displays[j])
      {
        if IsPointInDisplay(c, displays[i]) {
          var r := FirstContaining(displays, c);
          assert r.Some?;
          return Some(displays[i]);
        }
        i := i + 1;
      }
      return mainDisplay;
    }

    /** Lays the window exactly over the display; fails (and changes nothing) when the
        handle is not a window. */
    method MoveWindowToDisplay(hwnd: int, d: Display, os: Os) returns (ok: bool, os': Os)
      ensures ok <==> IsWindow(os, hwnd)
      ensures ok ==> Find(os', hwnd).Some? && Find(os', hwnd).value.rect == DisplayRect(d)
      ensures ok ==> os' == MoveWindow(os, hwnd, d.left, d.top, d.width, d.height)
      ensures !ok ==> os' == os
    {
      if !IsWindow(os, hwnd) {
        return false, os;
      }
      os' := MoveWindow(os, hwnd, d.left, d.top, d.width, d.height);
      MoveWindowSetsRect(os, hwnd, d.left, d.top, d.width, d.height);
      ok := true;
    }

    /** Moves the window onto the virtual display; False without one. */
    method MoveWindowToVirtualDisplay(hwnd: int, os: Os) returns (ok: bool, os': Os)
      ensures virtualDisplay.None? ==> !ok && os' == os
      ensures ok <==> virtualDisplay.Some? && IsWindow(os, hwnd)
      ensures ok ==> Find(os', hwnd).Some? && Find(os', hwnd).value.rect == DisplayRect(virtualDisplay.value)
      ensures ok ==> os' == MoveWindow(os, hwnd, virtualDisplay.value.left, virtualDisplay.value.top,
                                       virtualDisplay.value.width, virtualDisplay.value.height)
      ensures !ok ==> os' == os
    {
      if virtualDisplay.None? {
        return false, os;
      }
      ok, os' := MoveWindowToDisplay(hwnd, virtualDisplay.value, os);
    }

    /**
     * Shows the window maximised (over `area`, the rectangle the system maximises it to),
     * then makes it the foreground window, which fails (raising, so False) for an invalid
     * handle or when the system refuses (`foregroundOk` false).
     */
    method ActivateWindow(hwnd: int, os: Os, area: Rect, foregroundOk: bool) returns (ok: bool, os': Os)
      ensures os' == Activated(os, hwnd, area, foregroundOk)
      ensures ok <==> IsWindow(os, hwnd) && foregroundOk
      ensures ok ==> os'.foreground == hwnd
      ensures !ok ==> os'.foreground == os.foreground
      ensures IsWindow(os, hwnd) ==>
        Find(os', hwnd).Some? && Find(os', hwnd).value.rect == area && Find(os', hwnd).value.visible
      ensures !IsWindow(os, hwnd) ==> os' == os
    {
      os' := ShowMaximized(os, hwnd, area);
      if !IsWindow(os, hwnd) || !foregroundOk {
        ok := false;
        return;
      }
      os' := os'.(foreground := hwnd);
      ok := true;
      ShowMaximizedSetsRect(os, hwnd, area);
    }

    /** Exact: `FindWindow`. Otherwise: enumerates the top-level windows, collects the
        visible ones whose title contains `title` (case-sensitive), returns the first or 0. */
    method FindWindowByTitle(title: string, exactMatch: bool, os: Os) returns (h: int)
      ensures exactMatch ==> h == FindWindowExact(TopLevel(os), title)
      ensures !exactMatch ==> h == (if TitleMatches(TopLevel(os), title) == [] then 0
                                    else TitleMatches(TopLevel(os), title)[0])
    {
      if exactMatch {
        return FindWindowExact(TopLevel(os), title);
      }
      var matching := CollectTitleMatches(TopLevel(os), title);
      h := if matching != [] then matching[0] else 0;
    }
  }
}
