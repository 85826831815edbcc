/**
 * The window registry: a cache of the visible, titled, non-trivial top-level windows
 * (an insertion-ordered dictionary keyed by handle), case-insensitive lookup by title and
 * class, single-window lookup with insertion on a miss, and moving a game window between
 * the main and the virtual display.
 */
module GameWindows {
  import opened Wrappers
  import opened Win32
  import opened Text
  import opened VirtualDisplay

  /** The cached description of one window. */
  datatype WindowInfo = WindowInfo(title: string, className: string, left: int, top: int, width: int, height: int)

  /** One item of the handle-keyed dictionary, kept in insertion order. */
  datatype Entry = Entry(hwnd: int, info: WindowInfo)

  /** Which window a move request names: a handle, or a title to search for. */
  datatype Target = ByHandle(hwnd: int) | ByTitle(title: string)

  function InfoOf(w: Window): WindowInfo
  {
    WindowInfo(w.title, w.className, w.rect.left, w.rect.top, w.rect.Width(), w.rect.Height())
  }

  /** The refresh filter: visible, a non-empty title, and both sides longer than 100. */
  predicate Qualifies(w: Window)
  {
    w.visible && w.title != "" && w.rect.Width() > 100 && w.rect.Height() > 100
  }

  function Keys(es: seq<Entry>): (ks: seq<int>)
    ensures |ks| == |es|
  {
    if es == [] then [] else [es[0].hwnd] + Keys(es[1..])
  }

  /** `d.get(h)`. */
  function Get(es: seq<Entry>, h: int): (r: Option<WindowInfo>)
    ensures r.Some? ==> Entry(h, r.value) in es
    ensures r.None? <==> h !in Keys(es)
  {
    if es == [] then None else if es[0].hwnd == h then Some(es[0].info) else Get(es[1..], h)
  }

  /** `d[h] = info`: an existing key keeps its position, a new key goes last. */
  function Put(es: seq<Entry>, h: int, info: WindowInfo): (r: seq<Entry>)
    ensures Get(r, h) == Some(info)
    ensures h in Keys(es) ==> Keys(r) == Keys(es)
    ensures h !in Keys(es) ==> r == es + [Entry(h, info)]
  {
    if es == [] then [Entry(h, info)]
    else if es[0].hwnd == h then
      var r := [Entry(h, info)] + es[1..];
      assert r[1..] == es[1..];
      r
    else
      var rest := Put(es[1..], h, info);
      var r := [es[0]] + rest;
      assert r[1..] == rest;
      assert Keys(es) == [es[0].hwnd] + Keys(es[1..]);
      assert Keys(r) == [es[0].hwnd] + Keys(rest);
      r
  }

  /** Writing one key leaves every other key's value as it was. */
  lemma {:induction false} PutKeepsOthers(es: seq<Entry>, h: int, info: WindowInfo, k: int)
    requires k != h
    ensures Get(Put(es, h, info), k) == Get(es, k)
  {
    if es != [] && es[0].hwnd != h {
      PutKeepsOthers(es[1..], h, info, k);
    }
  }

  /** Writing adds no entry other than the written pair. */
  lemma {:induction false} PutEntries(es: seq<Entry>, h: int, info: WindowInfo)
    ensures forall e :: e in Put(es, h, info) ==> e in es || e == Entry(h, info)
  {
    if es != [] && es[0].hwnd != h {
      PutEntries(es[1..], h, info);
    }
  }

  /** The cache `update_game_windows` builds from the enumerated windows, in order. */
  function Cache(ws: seq<Window>): (r: seq<Entry>)
    ensures |r| <= |ws|
  {
    if ws == [] then []
    else
      var last := ws[|ws| - 1];
      var es := Cache(ws[..|ws| - 1]);
      if Qualifies(last) then Put(es, last.hwnd, InfoOf(last)) else es
  }

  /** One more enumerated window extends the cache by at most that window. */
  lemma CacheStep(ws: seq<Window>, i: int)
    requires 0 <= i < |ws|
    ensures Cache(ws[..i + 1])
         == if Qualifies(ws[i]) then Put(Cache(ws[..i]), ws[i].hwnd, InfoOf(ws[i])) else Cache(ws[..i])
  {
    var prefix := ws[..i + 1];
    assert prefix[..i] == ws[..i] && prefix[i] == ws[i];
  }

  /** No handle is cached twice. */
  lemma {:induction false} CacheKeysDistinct(ws: seq<Window>)
    ensures Distinct(Keys(Cache(ws)))
  {
    if ws != [] {
      var last := ws[|ws| - 1];
      CacheKeysDistinct(ws[..|ws| - 1]);
      if Qualifies(last) {
        PutKeepsKeysDistinct(Cache(ws[..|ws| - 1]), last.hwnd, InfoOf(last));
      }
    }
  }

  /** No handle occurs twice. */
  predicate Distinct(ks: seq<int>)
  {
    forall i, j :: 0 <= i < j < |ks| ==> ks[i] != ks[j]
  }

  /** A dictionary write keeps the keys pairwise distinct and adds at most one item. */
  lemma {:induction false} PutKeepsKeysDistinct(es: seq<Entry>, h: int, info: WindowInfo)
    requires Distinct(Keys(es))
    ensures |Put(es, h, info)| <= |es| + 1
    ensures Distinct(Keys(Put(es, h, info)))
  {
    if h !in Keys(es) {
      KeysAppend(es, Entry(h, info));
      DistinctAppend(Keys(es), h);
    }
  }

  lemma {:induction false} KeysAppend(es: seq<Entry>, e: Entry)
    ensures Keys(es + [e]) == Keys(es) + [e.hwnd]
  {
    if es != [] {
      assert (es + [e])[1..] == es[1..] + [e];
      KeysAppend(es[1..], e);
    }
  }

  lemma DistinctAppend(ks: seq<int>, k: int)
    requires Distinct(ks) && k !in ks
    ensures Distinct(ks + [k])
  {
    var l := ks + [k];
    forall i, j | 0 <= i < j < |l|
      ensures l[i] != l[j]
    {
      if j == |ks| {
        assert l[i] == ks[i];
      }
    }
  }

  /** The title (and, when given, the class) contains the pattern, ignoring case. */
  predicate Matches(e: Entry, titlePattern: string, classPattern: Option<string>)
  {
    && Contains(Lower(e.info.title), Lower(titlePattern))
    && (classPattern.None? || Contains(Lower(e.info.className), Lower(classPattern.value)))
  }

  /** Handles of the matching entries, in insertion order. */
  function MatchingHandles(es: seq<Entry>, titlePattern: string, classPattern: Option<string>): (r: seq<int>)
    ensures |r| <= |es|
  {
    if es == [] then []
    else
      var last := es[|es| - 1];
      MatchingHandles(es[..|es| - 1], titlePattern, classPattern)
        + (if Matches(last, titlePattern, classPattern) then [last.hwnd] else [])
  }

  /** The loop of `find_game_window`: the handles of the matching cached entries, in order. */
  method CollectMatches(es: seq<Entry>, titlePattern: string, classPattern: Option<string>) returns (matching: seq<int>)
    ensures matching == MatchingHandles(es, titlePattern, classPattern)
  {
    matching := [];
    var i := 0;
    while i < |es|
      invariant 0 <= i <= |es|
      invariant matching == MatchingHandles(es[..i], titlePattern, classPattern)
    {
      var e := es[i];
      assert es[..i + 1][..i] == es[..i] && es[..i + 1][i] == e;
      if Matches(e, titlePattern, classPattern) {
        matching := matching + [e.hwnd];
      }
      i := i + 1;
    }
    assert es[..|es|] == es;
  }

  function FirstOrZero(hs: seq<int>): int
  {
    if hs == [] then 0 else hs[0]
  }

  /** The handle a move request resolves to (a title is looked up on a fresh cache). */
  function Resolve(target: Target, os: Os): int
  {
    match target
    case ByHandle(h) => h
    case ByTitle(t) => FirstOrZero(MatchingHandles(Cache(TopLevel(os)), t, None))
  }

  /** `is_window_on_virtual_screen`'s test on a display answer. */
  predicate OnVirtualScreen(d: Option<Display>)
  {
    d.Some? && !d.value.isPrimary
  }

  // ---- Properties of the cache ----

  /** Every cached entry comes from an enumerated window that passes the filter, with
      width = right - left and height = bottom - top: no stale or unfiltered entry. */
  lemma {:induction false} CacheEntriesQualify(ws: seq<Window>)
    ensures forall e :: e in Cache(ws) ==>
      exists w :: w in ws && w.hwnd == e.hwnd && Qualifies(w) && e.info == InfoOf(w)
  {
    if ws != [] {
      var init := ws[..|ws| - 1];
      CacheEntriesQualify(init);
      assert forall w :: w in init ==> w in ws;
      var last := ws[|ws| - 1];
      if Qualifies(last) {
        PutEntries(Cache(init), last.hwnd, InfoOf(last));
      }
    }
  }

  /** A cached entry is visible-titled-and-large in its own terms. */
  lemma CachedInfoIsLarge(ws: seq<Window>, e: Entry)
    requires e in Cache(ws)
    ensures e.info.title != "" && e.info.width > 100 && e.info.height > 100
  {
    CacheEntriesQualify(ws);
  }

  /** Every qualifying window is cached under its handle, with the description of its last
      occurrence in enumeration order. */
  lemma {:induction false} CacheHasQualifying(ws: seq<Window>, k: int)
    requires 0 <= k < |ws| && Qualifies(ws[k])
    requires forall j :: k < j < |ws| ==> ws[j].hwnd != ws[k].hwnd
    ensures Get(Cache(ws), ws[k].hwnd) == Some(InfoOf(ws[k]))
  {
    var init := ws[..|ws| - 1];
    if k < |ws| - 1 {
      CacheHasQualifying(init, k);
      var last := ws[|ws| - 1];
      if Qualifies(last) {
        PutKeepsOthers(Cache(init), last.hwnd, InfoOf(last), ws[k].hwnd);
      }
    }
  }

  /** `find_game_window`'s answer: nothing matches iff the match list is empty, and
      otherwise its head is the first matching entry in insertion order. */
  lemma {:induction false} MatchingFirst(es: seq<Entry>, tp: string, cp: Option<string>)
    ensures MatchingHandles(es, tp, cp) == [] <==> forall j :: 0 <= j < |es| ==> !Matches(es[j], tp, cp)
    ensures MatchingHandles(es, tp, cp) != [] ==>
      exists k :: 0 <= k < |es| && es[k].hwnd == MatchingHandles(es, tp, cp)[0] && Matches(es[k], tp, cp)
        && forall j :: 0 <= j < k ==> !Matches(es[j], tp, cp)
  {
    if es != [] {
      var init := es[..|es| - 1];
      MatchingFirst(init, tp, cp);
      assert forall j :: 0 <= j < |init| ==> init[j] == es[j];
      if MatchingHandles(init, tp, cp) != [] {
        var k :| 0 <= k < |init| && init[k].hwnd == MatchingHandles(init, tp, cp)[0] && Matches(init[k], tp, cp)
          && forall j :: 0 <= j < k ==> !Matches(init[j], tp, cp);
        assert es[k] == init[k];
      }
    }
  }

  /** Each listed handle belongs to a matching entry. */
  lemma {:induction false} MatchingHandlesSound(es: seq<Entry>, tp: string, cp: Option<string>)
    ensures forall h :: h in MatchingHandles(es, tp, cp) ==>
      exists e :: e in es && e.hwnd == h && Matches(e, tp, cp)
  {
    if es != [] {
      var init := es[..|es| - 1];
      var last := es[|es| - 1];
      assert es == init + [last];
      MatchingHandlesSound(init, tp, cp);
      var ri := MatchingHandles(init, tp, cp);
      forall h | h in MatchingHandles(es, tp, cp)
        ensures exists e :: e in es && e.hwnd == h && Matches(e, tp, cp)
      {
        if h in ri {
          var e :| e in init && e.hwnd == h && Matches(e, tp, cp);
          assert e in es;
        } else {
          assert h == last.hwnd && Matches(last, tp, cp);
        }
      }
    }
  }

  /** Every matching entry's handle is listed. */
  lemma {:induction false} MatchingHandlesComplete(es: seq<Entry>, tp: string, cp: Option<string>)
    ensures forall k :: 0 <= k < |es| && Matches(es[k], tp, cp) ==> es[k].hwnd in MatchingHandles(es, tp, cp)
  {
    if es != [] {
      var init := es[..|es| - 1];
      MatchingHandlesComplete(init, tp, cp);
      assert forall k :: 0 <= k < |init| ==> init[k] == es[k];
    }
  }

  /** Matching ignores case on both sides: an upper-cased pattern finds the same windows. */
  lemma MatchIgnoresPatternCase(e: Entry, tp: string, cp: Option<string>)
    ensures Matches(e, Lower(tp), cp) <==> Matches(e, tp, cp)
  {
    LowerIdempotent(tp);
  }

  /** After `move_game_to_virtual_screen` moves a window onto the synthesized display and
      activates it, the window counts as on the virtual screen exactly when the rectangle
      the system maximised it to has its centre inside the virtual display: the
      maximisation, not the move, decides where the game ends up. */
  lemma MaximisedGameOnVirtualScreen(m: Metrics, os: Os, hwnd: int, area: Rect, foregroundOk: bool)
    requires m.width > 0 && m.height > 0
    requires IsWindow(os, hwnd)
    ensures var t := Refresh(Some(m)); var v := t.virtualDisplay.value;
      var os' := Activated(MoveWindow(os, hwnd, v.left, v.top, v.width, v.height), hwnd, area, foregroundOk);
      OnVirtualScreen(WindowDisplay(t, os', hwnd)) <==> IsPointInDisplay(Centre(area), v)
  {
    var t := Refresh(Some(m));
    var v := t.virtualDisplay.value;
    var moved := MoveWindow(os, hwnd, v.left, v.top, v.width, v.height);
    MoveWindowSetsRect(os, hwnd, v.left, v.top, v.width, v.height);
    var os' := Activated(moved, hwnd, area, foregroundOk);
    var c := Centre(area);
    assert Find(os', hwnd).value.rect == area;
    RefreshYieldsMainAndVirtual(m);
    if IsPointInDisplay(c, t.displays[0]) {
      assert !IsPointInDisplay(c, v);
      assert WindowDisplay(t, os', hwnd) == Some(t.displays[0]);
    } else if IsPointInDisplay(c, v) {
      assert FirstContaining(t.displays[1..], c) == Some(v);
    } else {
      assert FirstContaining(t.displays, c).None?;
    }
  }

  class GameWindowManager {
    var gameWindows: seq<Entry>

    constructor (os: Os)
      ensures gameWindows == Cache(TopLevel(os))
    {
      gameWindows := [];
      new;
      UpdateGameWindows(os);
    }

    /** Replaces the cache wholesale with the qualifying enumerated windows. */
    method UpdateGameWindows(os: Os)
      modifies this
      ensures gameWindows == Cache(TopLevel(os))
    {
      gameWindows := [];
      var ws := TopLevel(os);
      var i := 0;
      while i < |ws|
        invariant 0 <= i <= |ws|
        invariant gameWindows == Cache(ws[..i])
      {
        var w := ws[i];
        CacheStep(ws, i);
        if w.visible && w.title != "" {
          var width := w.rect.right - w.rect.left;
          var height := w.rect.bottom - w.rect.top;
          assert Qualifies(w) <==> width > 100 && height > 100;
          if width > 100 && height > 100 {
            gameWindows := Put(gameWindows, w.hwnd, InfoOf(w));
          }
        }
        i := i + 1;
      }
      assert ws[..|ws|] == ws;
    }

    /** Refreshes, then returns the first cached handle whose title (and class, when a class
        pattern is given) contains the pattern case-insensitively; 0 when none does. */
    method FindGameWindow(titlePattern: string, classPattern: Option<string>, os: Os) returns (h: int)
      modifies this
      ensures gameWindows == Cache(TopLevel(os))
      ensures h == FirstOrZero(MatchingHandles(gameWindows, titlePattern, classPattern))
    {
      UpdateGameWindows(os);
      var matching := CollectMatches(gameWindows, titlePattern, classPattern);
      h := if matching != [] then matching[0] else 0;
    }

    /** A hit returns the cached entry unchanged; a miss on a live, visible window inserts
        and returns a fresh description (no size filter); otherwise None, cache unchanged. */
    method GetWindowInfo(hwnd: int, os: Os) returns (info: Option<WindowInfo>)
      modifies this
      ensures Get(old(gameWindows), hwnd).Some? ==>
        info == Get(old(gameWindows), hwnd) && gameWindows == old(gameWindows)
      ensures Get(old(gameWindows), hwnd).None? && Find(os, hwnd).Some? && Find(os, hwnd).value.visible ==>
        info == Some(InfoOf(Find(os, hwnd).value))
        && gameWindows == old(gameWindows) + [Entry(hwnd, InfoOf(Find(os, hwnd).value))]
      ensures Get(old(gameWindows), hwnd).None? && !(Find(os, hwnd).Some? && Find(os, hwnd).value.visible) ==>
        info.None? && gameWindows == old(gameWindows)
      ensures info.Some? ==> Get(gameWindows, hwnd) == info
    {
      var cached := Get(gameWindows, hwnd);
      if cached.Some? {
        return cached;
      }
      var w := Find(os, hwnd);
      if w.Some? && w.value.visible {
        var windowInfo := InfoOf(w.value);
        gameWindows := Put(gameWindows, hwnd, windowInfo);
        return Some(windowInfo);
      }
      return None;
    }

    /** Resolves the target (a title that matches nothing gives False without touching the
        displays), refreshes the topology, and without a virtual display gives False;
        otherwise moves the window onto it and, on success, activates it. */
    method MoveGameToVirtualScreen(target: Target, vdm: VirtualDisplayManager, metrics: Option<Metrics>, os: Os,
                                   area: Rect, foregroundOk: bool)
      returns (ok: bool, os': Os)
      modifies this, vdm
      ensures target.ByTitle? ==> gameWindows == Cache(TopLevel(os))
      ensures target.ByHandle? ==> gameWindows == old(gameWindows)
      ensures target.ByTitle? && Resolve(target, os) == 0 ==>
        !ok && os' == os && vdm.Current() == old(vdm.Current())
      ensures !(target.ByTitle? && Resolve(target, os) == 0) ==> vdm.Current() == Refresh(metrics)
      ensures Refresh(metrics).virtualDisplay.None? ==> !ok && os' == os
      ensures ok <==> !(target.ByTitle? && Resolve(target, os) == 0)
                      && Refresh(metrics).virtualDisplay.Some? && IsWindow(os, Resolve(target, os))
      ensures ok ==> var h := Resolve(target, os); var v := Refresh(metrics).virtualDisplay.value;
        os' == Activated(MoveWindow(os, h, v.left, v.top, v.width, v.height), h, area, foregroundOk)
      ensures ok ==> var w := Find(os', Resolve(target, os));
        w.Some? && w.value.rect == area && w.value.visible
      ensures !ok ==> os' == os
    {
      var hwnd: int;
      match target {
        case ByTitle(t) =>
          hwnd := FindGameWindow(t, None, os);
          if hwnd == 0 {
            return false, os;
          }
        case ByHandle(h) =>
          hwnd := h;
      }
      vdm.UpdateDisplaysInfo(metrics);
      if vdm.virtualDisplay.None? {
        return false, os;
      }
      ok, os' := vdm.MoveWindowToVirtualDisplay(hwnd, os);
      if ok {
        assert IsWindow(os', hwnd) by { MoveWindowSetsRect(os, hwnd, vdm.virtualDisplay.value.left,
          vdm.virtualDisplay.value.top, vdm.virtualDisplay.value.width, vdm.virtualDisplay.value.height); }
        var activated;
        activated, os' := vdm.ActivateWindow(hwnd, os', area, foregroundOk);
      }
    }

    /** The same control flow towards the main display. */
    method MoveGameToMainScreen(target: Target, vdm: VirtualDisplayManager, metrics: Option<Metrics>, os: Os,
                                area: Rect, foregroundOk: bool)
      returns (ok: bool, os': Os)
      modifies this, vdm
      ensures target.ByTitle? ==> gameWindows == Cache(TopLevel(os))
      ensures target.ByHandle? ==> gameWindows == old(gameWindows)
      ensures target.ByTitle? && Resolve(target, os) == 0 ==>
        !ok && os' == os && vdm.Current() == old(vdm.Current())
      ensures !(target.ByTitle? && Resolve(target, os) == 0) ==> vdm.Current() == Refresh(metrics)
      ensures ok <==> !(target.ByTitle? && Resolve(target, os) == 0)
                      && Refresh(metrics).main.Some? && IsWindow(os, Resolve(target, os))
      ensures ok ==> var h := Resolve(target, os); var d := Refresh(metrics).main.value;
        os' == Activated(MoveWindow(os, h, d.left, d.top, d.width, d.height), h, area, foregroundOk)
      ensures ok ==> var w := Find(os', Resolve(target, os));
        w.Some? && w.value.rect == area && w.value.visible
      ensures !ok ==> os' == os
    {
      var hwnd: int;
      match target {
        case ByTitle(t) =>
          hwnd := FindGameWindow(t, None, os);
          if hwnd == 0 {
            return false, os;
          }
        case ByHandle(h) =>
          hwnd := h;
      }
      vdm.UpdateDisplaysInfo(metrics);
      if vdm.mainDisplay.None? {
        return false, os;
      }
      var d := vdm.mainDisplay.value;
      ok, os' := vdm.MoveWindowToDisplay(hwnd, d, os);
      if ok {
        assert IsWindow(os', hwnd) by { MoveWindowSetsRect(os, hwnd, d.left, d.top, d.width, d.height); }
        var activated;
        activated, os' := vdm.ActivateWindow(hwnd, os', area, foregroundOk);
      }
    }

    /** Refreshes the topology, then asks it for the window's display. */
    method GetWindowDisplay(hwnd: int, vdm: VirtualDisplayManager, metrics: Option<Metrics>, os: Os)
      returns (d: Option<Display>)
      modifies vdm
      ensures vdm.Current() == Refresh(metrics)
      ensures d == WindowDisplay(Refresh(metrics), os, hwnd)
    {
      vdm.UpdateDisplaysInfo(metrics);
      d := vdm.GetWindowDisplay(hwnd, os);
    }

    /** True iff the window's display exists and is not the primary one. */
    method IsWindowOnVirtualScreen(hwnd: int, vdm: VirtualDisplayManager, metrics: Option<Metrics>, os: Os)
      returns (b: bool)
      modifies vdm
      ensures vdm.Current() == Refresh(metrics)
      ensures b <==> OnVirtualScreen(WindowDisplay(Refresh(metrics), os, hwnd))
    {
      var display := GetWindowDisplay(hwnd, vdm, metrics, os);
      b := display.Some? && !display.value.isPrimary;
    }
  }
}
