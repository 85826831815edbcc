/**
 * The background device: a click at an automation position becomes a posted
 * move/press/release/leave sequence at the window's client coordinates; repeated post
 * failures switch the device, for good, to the cursor-teleport click; key names become
 * virtual-key messages and text becomes one character message per character.
 */
module Background {
  import opened Wrappers
  import opened Win32
  import opened LParam
  import opened Text
  import opened VirtualDisplay
  import Mouse
  import Performance

  /**
   * The position values a touch accepts: a list or tuple of coordinates, an image template
   * whose match result holds a `result` entry (None when the match result is empty), or a
   * dictionary with optional `x`, `y` and `result` entries and no other keys.
   */
  datatype Pos =
    | Coords(items: seq<int>)
    | Template(matchResult: Option<seq<int>>)
    | Mapping(x: Option<int>, y: Option<int>, result: Option<seq<int>>)

  datatype ClickMethod = ViaPostMessage | ViaSendInput

  /** The click-delivery state: the current method and the consecutive post failures. */
  datatype Binding = Binding(via: ClickMethod, failCount: nat)

  /** `_get_screen_coords`: the coordinate sequence a position holds; None when the value
      comes back unconverted (an empty template) or as dictionary keys, not numbers. */
  function ScreenCoords(pos: Pos): (r: Option<seq<int>>)
    ensures TouchPoint(pos).Some? ==> Unpack(r) == TouchPoint(pos)
    ensures pos.Mapping? && pos.x.Some? && pos.y.Some? ==> Unpack(r) == Some(Point(pos.x.value, pos.y.value))
    ensures pos.Mapping? && !(pos.x.Some? && pos.y.Some?) ==> r == pos.result
  {
    match pos
    case Coords(items) => Some(items)
    case Template(r) => r
    case Mapping(x, y, r) =>
      if x.Some? && y.Some? then Some([x.value, y.value])
      else if r.Some? then r
      else None
  }

  function Unpack(c: Option<seq<int>>): Option<Point>
  {
    if c.Some? && |c.value| == 2 then Some(Point(c.value[0], c.value[1])) else None
  }

  /** The point `touch` unpacks itself: two coordinates from a list, tuple or template; a
      dictionary is iterated over its keys, which never yields numbers. */
  function TouchPoint(pos: Pos): (r: Option<Point>)
    ensures pos.Mapping? ==> r.None?
    ensures pos.Coords? ==> (r.Some? <==> |pos.items| == 2)
    ensures pos.Coords? && |pos.items| == 2 ==> r == Some(Point(pos.items[0], pos.items[1]))
    ensures pos.Template? ==> (r.Some? <==> pos.matchResult.Some? && |pos.matchResult.value| == 2)
    ensures pos.Template? && pos.matchResult.Some? && |pos.matchResult.value| == 2 ==>
      r == Some(Point(pos.matchResult.value[0], pos.matchResult.value[1]))
  {
    match pos
    case Coords(items) => Unpack(Some(items))
    case Template(r) => Unpack(r)
    case Mapping(_, _, _) => None
  }

  /** `touch`'s range repair: a coordinate outside [0, size) becomes max(0, min(v, size-1)). */
  function ClampTouch(v: int, size: int): (r: int)
    ensures size >= 1 ==> 0 <= r < size
    ensures 0 <= v < size ==> r == v
    ensures v < 0 ==> r == 0
    ensures v >= size >= 1 ==> r == size - 1
    ensures size <= 0 ==> r == 0
  {
    if v < 0 || v >= size then
      if size - 1 < v then (if size - 1 < 0 then 0 else size - 1) else (if v < 0 then 0 else v)
    else v
  }

  /** Where the client mapping puts the client area's origin on the screen: the
      `ScreenToClient` origin, or the window's top-left corner when that query raises. */
  function ClientOrigin(w: Window): Point
  {
    if w.clientOrigin.Some? then w.clientOrigin.value else Point(w.rect.left, w.rect.top)
  }

  /** Screen to client coordinates: embedded windows already get client coordinates;
      otherwise `ScreenToClient`, or the window origin subtracted when that raises. */
  function ToClient(w: Window, embedded: bool, p: Point): (r: Point)
    ensures embedded ==> r == p
    ensures !embedded ==> Point(r.x + ClientOrigin(w).x, r.y + ClientOrigin(w).y) == p
  {
    if embedded then p
    else match w.clientOrigin
      case Some(o) => Point(p.x - o.x, p.y - o.y)
      case None => Point(p.x - w.rect.left, p.y - w.rect.top)
  }

  /** The client point a touch clicks at; None when a window query raises or the position
      does not unpack into two coordinates. */
  function TouchClientPoint(os: Os, hwnd: int, embedded: bool, pos: Pos): (r: Option<Point>)
    ensures r.Some? <==> Find(os, hwnd).Some? && TouchPoint(pos).Some?
  {
    match Find(os, hwnd)
    case None => None
    case Some(w) =>
      match TouchPoint(pos)
      case None => None
      case Some(p) =>
        var c := ToClient(w, embedded, p);
        Some(Point(ClampTouch(c.x, w.clientWidth), ClampTouch(c.y, w.clientHeight)))
  }

  /** `_get_embedded_window_coords`: two coordinates clamped to [0, client size] inclusive;
      the unconverted value when there is no window or anything raises. */
  function EmbeddedWindowCoords(hwnd: int, pos: Pos, os: Os): (r: Option<seq<int>>)
    ensures hwnd != 0 && Unpack(ScreenCoords(pos)).Some? && Find(os, hwnd).Some? ==>
      var w := Find(os, hwnd).value;
      r.Some? && |r.value| == 2
      && (w.clientWidth >= 0 ==> 0 <= r.value[0] <= w.clientWidth)
      && (w.clientHeight >= 0 ==> 0 <= r.value[1] <= w.clientHeight)
    ensures hwnd != 0 && Unpack(ScreenCoords(pos)).Some? && Find(os, hwnd).Some? ==>
      var w := Find(os, hwnd).value; var p := Unpack(ScreenCoords(pos)).value;
      && (0 <= p.x <= w.clientWidth ==> r.value[0] == p.x)
      && (0 <= p.y <= w.clientHeight ==> r.value[1] == p.y)
      && (p.x < 0 ==> r.value[0] == 0) && (p.y < 0 ==> r.value[1] == 0)
      && (p.x > w.clientWidth >= 0 ==> r.value[0] == w.clientWidth)
      && (p.y > w.clientHeight >= 0 ==> r.value[1] == w.clientHeight)
    ensures hwnd == 0 || Unpack(ScreenCoords(pos)).None? || Find(os, hwnd).None? ==> r == ScreenCoords(pos)
  {
    if hwnd == 0 then ScreenCoords(pos)
    else match (Unpack(ScreenCoords(pos)), Find(os, hwnd))
      case (Some(p), Some(w)) => Some([Mouse.ClampOffset(p.x, w.clientWidth), Mouse.ClampOffset(p.y, w.clientHeight)])
      case _ => ScreenCoords(pos)
  }

  /** The four messages of a posted click at client (x, y). */
  function ClickMessages(hwnd: int, x: int, y: int, right: bool): (r: seq<Message>)
    ensures |r| == 4 && forall i :: 0 <= i < 4 ==> r[i].hwnd == hwnd
    ensures r[0].msg == WM_MOUSEMOVE && r[3] == Message(hwnd, WM_MOUSELEAVE, 0, 0)
    ensures r[1].msg == (if right then WM_RBUTTONDOWN else WM_LBUTTONDOWN)
    ensures r[2].msg == (if right then WM_RBUTTONUP else WM_LBUTTONUP)
    ensures r[0].wParam == 0 && r[1].wParam == (if right then MK_RBUTTON else MK_LBUTTON) && r[2].wParam == 0
    ensures forall i :: 0 <= i < 3 ==> r[i].lParam == Pack(x, y)
    ensures 0 <= x < 65536 ==>
      forall i :: 0 <= i < 3 ==> r[i].lParam % 65536 == x && r[i].lParam / 65536 == y
    ensures -65536 <= x < 0 ==> forall i :: 0 <= i < 3 ==> r[i].lParam == x
  {
    var lp := Pack(x, y);
    assert 0 <= x < 65536 ==> lp % 65536 == x && lp / 65536 == y by {
      if 0 <= x < 65536 {
        PackRoundTrip(x, y);
      }
    }
    assert -65536 <= x < 0 ==> lp == x by {
      if -65536 <= x < 0 {
        PackNegativeX(x, y);
      }
    }
    [ Message(hwnd, WM_MOUSEMOVE, 0, lp),
      if right then Message(hwnd, WM_RBUTTONDOWN, MK_RBUTTON, lp) else Message(hwnd, WM_LBUTTONDOWN, MK_LBUTTON, lp),
      if right then Message(hwnd, WM_RBUTTONUP, 0, lp) else Message(hwnd, WM_LBUTTONUP, 0, lp),
      Message(hwnd, WM_MOUSELEAVE, 0, 0) ]
  }

  /**
   * The key-name table of `keyevent`, written as the union of its letter entries and
   * the rest (digits and named keys); the two parts share no key, so the union is the
   * table itself, in source order.
   */
  const LetterKeys: map<string, int> := map[
    "a" := 0x41, "b" := 0x42, "c" := 0x43, "d" := 0x44, "e" := 0x45, "f" := 0x46,
    "g" := 0x47, "h" := 0x48, "i" := 0x49, "j" := 0x4A, "k" := 0x4B, "l" := 0x4C,
    "m" := 0x4D, "n" := 0x4E, "o" := 0x4F, "p" := 0x50, "q" := 0x51, "r" := 0x52,
    "s" := 0x53, "t" := 0x54, "u" := 0x55, "v" := 0x56, "w" := 0x57, "x" := 0x58,
    "y" := 0x59, "z" := 0x5A]

  const OtherKeys: map<string, int> := map[
    "0" := 0x30, "1" := 0x31, "2" := 0x32, "3" := 0x33, "4" := 0x34,
    "5" := 0x35, "6" := 0x36, "7" := 0x37, "8" := 0x38, "9" := 0x39,
    "enter" := 0x0D, "return" := 0x0D, "backspace" := 0x08, "tab" := 0x09,
    "space" := 0x20, "escape" := 0x1B,
    "left" := 0x25, "up" := 0x26, "right" := 0x27, "down" := 0x28]

  const KeyMap: map<string, int> := LetterKeys + OtherKeys

  /** The virtual-key code of a key name, looked up in lower case; None for an unknown name. */
  function KeyCode(name: string): (r: Option<int>)
    ensures r.Some? <==> Lower(name) in KeyMap
  {
    if Lower(name) in KeyMap then Some(KeyMap[Lower(name)]) else None
  }

  /** One WM_CHAR message per character, in text order, carrying the code point. */
  function CharMessages(hwnd: int, text: string): (r: seq<Message>)
    ensures |r| == |text|
    ensures forall i :: 0 <= i < |text| ==> r[i] == Message(hwnd, WM_CHAR, text[i] as int, 0)
  {
    if text == [] then [] else [Message(hwnd, WM_CHAR, text[0] as int, 0)] + CharMessages(hwnd, text[1..])
  }

  function Min(a: nat, b: nat): nat
  {
    if a < b then a else b
  }

  // ---- The escalation state machine ----

  /** The counter never passes the limit and reaches it exactly when the teleport click is
      selected. */
  predicate ValidBinding(b: Binding, limit: nat)
  {
    b.failCount <= limit && (b.via == ViaSendInput <==> b.failCount == limit)
  }

  /** One touch's effect on the binding; `posted` says whether the posted click went
      through (it is only attempted in PostMessage mode). */
  function AfterTouch(b: Binding, posted: bool, limit: nat): (r: Binding)
    ensures ValidBinding(b, limit) ==> ValidBinding(r, limit)
    ensures b.via == ViaSendInput ==> r == b
    ensures b.via == ViaPostMessage && posted ==> r.failCount == 0
    ensures b.via == ViaPostMessage && !posted ==> r.failCount == b.failCount + 1
  {
    if b.via == ViaSendInput then b
    else if posted then Binding(ViaPostMessage, 0)
    else if b.failCount + 1 >= limit then Binding(ViaSendInput, b.failCount + 1)
    else Binding(ViaPostMessage, b.failCount + 1)
  }

  /** The binding after a series of touches whose post outcomes are `posted`, in order. */
  function RunTouches(b: Binding, posted: seq<bool>, limit: nat): Binding
  {
    if posted == [] then b
    else AfterTouch(RunTouches(b, posted[..|posted| - 1], limit), posted[|posted| - 1], limit)
  }

  /** How many posts at the end of the series failed in a row. */
  function TrailingFailures(posted: seq<bool>): (n: nat)
    ensures n <= |posted|
  {
    if posted == [] || posted[|posted| - 1] then 0 else TrailingFailures(posted[..|posted| - 1]) + 1
  }

  predicate AllFailed(s: seq<bool>)
  {
    forall j :: 0 <= j < |s| ==> !s[j]
  }

  ghost predicate FailureRunAt(posted: seq<bool>, limit: nat, i: int)
  {
    0 <= i && i + limit <= |posted| && AllFailed(posted[i..i + limit])
  }

  /** Somewhere in the series, `limit` posts in a row failed. */
  ghost predicate FailureRun(posted: seq<bool>, limit: nat)
  {
    exists i :: FailureRunAt(posted, limit, i)
  }

  lemma {:induction false} TrailingAllFailed(s: seq<bool>, k: nat)
    requires k <= TrailingFailures(s)
    ensures AllFailed(s[|s| - k..])
  {
    if k > 0 {
      var init := s[..|s| - 1];
      TrailingAllFailed(init, k - 1);
      assert s[|s| - k..] == init[|init| - (k - 1)..] + [s[|s| - 1]];
    }
  }

  lemma {:induction false} AllFailedTrailing(s: seq<bool>, k: nat)
    requires k <= |s| && AllFailed(s[|s| - k..])
    ensures k <= TrailingFailures(s)
  {
    if k > 0 {
      var init := s[..|s| - 1];
      assert !s[|s| - 1] by { assert s[|s| - k..][k - 1] == s[|s| - 1]; }
      assert init[|init| - (k - 1)..] == s[|s| - k..][..k - 1];
      AllFailedTrailing(init, k - 1);
    }
  }

  /** Once the device has switched to the teleport click, no series of touches switches
      it back. */
  lemma {:induction false} SendInputIsSticky(c: nat, posted: seq<bool>, limit: nat)
    ensures RunTouches(Binding(ViaSendInput, c), posted, limit) == Binding(ViaSendInput, c)
  {
    if posted != [] {
      SendInputIsSticky(c, posted[..|posted| - 1], limit);
    }
  }

  /**
   * From a fresh device, the teleport click is selected exactly when some `limit` posts
   * in a row have failed; until then the counter equals the current run of failures and
   * stays below the limit, and after the switch it stays at the limit.
   */
  lemma {:induction false} EscalationCharacterised(posted: seq<bool>, limit: nat)
    requires limit >= 1
    ensures var b := RunTouches(Binding(ViaPostMessage, 0), posted, limit);
      && (b.via == ViaSendInput <==> FailureRun(posted, limit))
      && (b.via == ViaPostMessage ==> b.failCount == TrailingFailures(posted) < limit)
      && (b.via == ViaSendInput ==> b.failCount == limit)
  {
    if posted == [] {
      return;
    }
    var n := |posted|;
    var init := posted[..n - 1];
    EscalationCharacterised(init, limit);
    var bi := RunTouches(Binding(ViaPostMessage, 0), init, limit);
    // A run inside the prefix is a run of the whole series.
    forall i | FailureRunAt(init, limit, i)
      ensures FailureRunAt(posted, limit, i)
    {
      assert posted[i..i + limit] == init[i..i + limit];
    }
    // Every run of the whole series lies in the prefix or is its trailing run.
    forall i | FailureRunAt(posted, limit, i)
      ensures FailureRunAt(init, limit, i) || TrailingFailures(posted) >= limit
    {
      RunEndsAt(posted, limit, i);
    }
    if bi.via == ViaPostMessage && !posted[n - 1] && bi.failCount + 1 >= limit {
      TrailingAllFailed(posted, limit);
      assert posted[n - limit..n] == posted[n - limit..];
      assert FailureRunAt(posted, limit, n - limit);
    }
  }

  /** A run of failures either lies before the last post or ends with it. */
  lemma {:induction false} RunEndsAt(posted: seq<bool>, limit: nat, i: int)
    requires posted != [] && FailureRunAt(posted, limit, i)
    ensures FailureRunAt(posted[..|posted| - 1], limit, i) || TrailingFailures(posted) >= limit
  {
    var n := |posted|;
    var run := posted[i..i + limit];
    if i + limit < n {
      assert posted[..n - 1][i..i + limit] == run;
      assert FailureRunAt(posted[..n - 1], limit, i);
    } else {
      assert i == n - limit;
      assert posted[n - limit..] == run;
      AllFailedTrailing(posted, limit);
    }
  }

  /** With the source's limit of three: two failed posts keep the posted click, a third in
      a row selects the teleport click, and a success in between starts the count again. */
  lemma ThreeFailuresEscalate()
    ensures RunTouches(Binding(ViaPostMessage, 0), [false, false], 3) == Binding(ViaPostMessage, 2)
    ensures RunTouches(Binding(ViaPostMessage, 0), [false, false, false], 3) == Binding(ViaSendInput, 3)
    ensures RunTouches(Binding(ViaPostMessage, 0), [false, false, true, false, false], 3) == Binding(ViaPostMessage, 2)
  {
    assert [false, false, false][..2] == [false, false];
    assert [false, false][..1] == [false];
    assert [false][..0] == [];
    assert [false, false, true, false, false][..4] == [false, false, true, false];
    assert [false, false, true, false][..3] == [false, false, true];
    assert [false, false, true][..2] == [false, false];
  }

  // ---- Properties of the coordinate pipeline ----

  /** With a non-empty client area the clicked point lies inside it; a point already inside
      is left unchanged (before clamping, it is the screen point minus the client origin). */
  lemma TouchPointInClient(os: Os, hwnd: int, embedded: bool, pos: Pos)
    requires TouchClientPoint(os, hwnd, embedded, pos).Some?
    ensures var w := Find(os, hwnd).value; var c := TouchClientPoint(os, hwnd, embedded, pos).value;
      var raw := ToClient(w, embedded, TouchPoint(pos).value);
      && (w.clientWidth >= 1 ==> 0 <= c.x < w.clientWidth)
      && (w.clientHeight >= 1 ==> 0 <= c.y < w.clientHeight)
      && (0 <= raw.x < w.clientWidth ==> c.x == raw.x)
      && (0 <= raw.y < w.clientHeight ==> c.y == raw.y)
  {
  }

  /** The packed lParam of a touch on a client area at most 65536 wide decodes back to the
      clicked point. */
  lemma TouchLParamDecodes(os: Os, hwnd: int, embedded: bool, pos: Pos)
    requires TouchClientPoint(os, hwnd, embedded, pos).Some?
    requires Find(os, hwnd).value.clientWidth <= 65536
    ensures var c := TouchClientPoint(os, hwnd, embedded, pos).value;
      Pack(c.x, c.y) % 65536 == c.x && Pack(c.x, c.y) / 65536 == c.y
  {
    var c := TouchClientPoint(os, hwnd, embedded, pos).value;
    PackRoundTrip(c.x, c.y);
  }

  /** The teleport retry reads the same two numbers as screen coordinates that the touch
      read as its position; for a non-embedded window whose client area does not start at
      the screen origin, that screen point is not the client point the posted click used
      but the client point shifted by the client origin. */
  lemma RetryUsesRawPosition(os: Os, hwnd: int, pos: Pos)
    requires TouchPoint(pos).Some?
    ensures Unpack(ScreenCoords(pos)) == TouchPoint(pos)
    ensures TouchClientPoint(os, hwnd, false, pos).Some? ==>
      var w := Find(os, hwnd).value; var o := ClientOrigin(w);
      var p := TouchPoint(pos).value; var c := TouchClientPoint(os, hwnd, false, pos).value;
      (0 <= p.x - o.x < w.clientWidth && 0 <= p.y - o.y < w.clientHeight ==>
        p == Point(c.x + o.x, c.y + o.y) && (o != Point(0, 0) ==> p != c))
  {
  }

  /** The two clamps differ at the far edge: the embedded helper admits the client width
      itself, the touch does not. */
  lemma ClampsDifferAtEdge(size: int)
    requires size >= 1
    ensures Mouse.ClampOffset(size, size) == size
    ensures ClampTouch(size, size) == size - 1
  {
  }

  /** A lower-case letter maps to 0x41 plus its place in the alphabet. */
  lemma LetterKeyCode(c: char)
    requires 'a' <= c <= 'z'
    ensures KeyCode([c]) == Some(0x41 + (c as int - 'a' as int))
  {
    assert Lower([c]) == [c];
    if c <= 'f' {
      LetterEntryAToF(c);
    } else if c <= 'm' {
      LetterEntryGToM(c);
    } else if c <= 's' {
      LetterEntryNToS(c);
    } else {
      LetterEntryTToZ(c);
    }
  }

  lemma LetterEntryAToF(c: char)
    requires 'a' <= c <= 'f'
    ensures [c] in KeyMap && KeyMap[[c]] == 0x41 + (c as int - 'a' as int)
  {
    if c == 'a' {
      assert [c] == "a";
      Entry_a();
    } else if c == 'b' {
      assert [c] == "b";
      Entry_b();
    } else if c == 'c' {
      assert [c] == "c";
      Entry_c();
    } else if c == 'd' {
      assert [c] == "d";
      Entry_d();
    } else if c == 'e' {
      assert [c] == "e";
      Entry_e();
    } else if c == 'f' {
      assert [c] == "f";
      Entry_f();
    }
  }

  lemma LetterEntryGToM(c: char)
    requires 'g' <= c <= 'm'
    ensures [c] in KeyMap && KeyMap[[c]] == 0x41 + (c as int - 'a' as int)
  {
    if c == 'g' {
      assert [c] == "g";
      Entry_g();
    } else if c == 'h' {
      assert [c] == "h";
      Entry_h();
    } else if c == 'i' {
      assert [c] == "i";
      Entry_i();
    } else if c == 'j' {
      assert [c] == "j";
      Entry_j();
    } else if c == 'k' {
      assert [c] == "k";
      Entry_k();
    } else if c == 'l' {
      assert [c] == "l";
      Entry_l();
    } else if c == 'm' {
      assert [c] == "m";
      Entry_m();
    }
  }

  lemma LetterEntryNToS(c: char)
    requires 'n' <= c <= 's'
    ensures [c] in KeyMap && KeyMap[[c]] == 0x41 + (c as int - 'a' as int)
  {
    if c == 'n' {
      assert [c] == "n";
      Entry_n();
    } else if c == 'o' {
      assert [c] == "o";
      Entry_o();
    } else if c == 'p' {
      assert [c] == "p";
      Entry_p();
    } else if c == 'q' {
      assert [c] == "q";
      Entry_q();
    } else if c == 'r' {
      assert [c] == "r";
      Entry_r();
    } else if c == 's' {
      assert [c] == "s";
      Entry_s();
    }
  }

  lemma LetterEntryTToZ(c: char)
    requires 't' <= c <= 'z'
    ensures [c] in KeyMap && KeyMap[[c]] == 0x41 + (c as int - 'a' as int)
  {
    if c == 't' {
      assert [c] == "t";
      Entry_t();
    } else if c == 'u' {
      assert [c] == "u";
      Entry_u();
    } else if c == 'v' {
      assert [c] == "v";
      Entry_v();
    } else if c == 'w' {
      assert [c] == "w";
      Entry_w();
    } else if c == 'x' {
      assert [c] == "x";
      Entry_x();
    } else if c == 'y' {
      assert [c] == "y";
      Entry_y();
    } else if c == 'z' {
      assert [c] == "z";
      Entry_z();
    }
  }

  // One table entry per letter, each a lookup in the literal. The solver does not look up
  // a key in a map display of this size unaided; these give it one entry at a time.
  lemma Entry_a() ensures "a" in KeyMap && KeyMap["a"] == 0x41 {}
  lemma Entry_b() ensures "b" in KeyMap && KeyMap["b"] == 0x42 {}
  lemma Entry_c() ensures "c" in KeyMap && KeyMap["c"] == 0x43 {}
  lemma Entry_d() ensures "d" in KeyMap && KeyMap["d"] == 0x44 {}
  lemma Entry_e() ensures "e" in KeyMap && KeyMap["e"] == 0x45 {}
  lemma Entry_f() ensures "f" in KeyMap && KeyMap["f"] == 0x46 {}
  lemma Entry_g() ensures "g" in KeyMap && KeyMap["g"] == 0x47 {}
  lemma Entry_h() ensures "h" in KeyMap && KeyMap["h"] == 0x48 {}
  lemma Entry_i() ensures "i" in KeyMap && KeyMap["i"] == 0x49 {}
  lemma Entry_j() ensures "j" in KeyMap && KeyMap["j"] == 0x4A {}
  lemma Entry_k() ensures "k" in KeyMap && KeyMap["k"] == 0x4B {}
  lemma Entry_l() ensures "l" in KeyMap && KeyMap["l"] == 0x4C {}
  lemma Entry_m() ensures "m" in KeyMap && KeyMap["m"] == 0x4D {}
  lemma Entry_n() ensures "n" in KeyMap && KeyMap["n"] == 0x4E {}
  lemma Entry_o() ensures "o" in KeyMap && KeyMap["o"] == 0x4F {}
  lemma Entry_p() ensures "p" in KeyMap && KeyMap["p"] == 0x50 {}
  lemma Entry_q() ensures "q" in KeyMap && KeyMap["q"] == 0x51 {}
  lemma Entry_r() ensures "r" in KeyMap && KeyMap["r"] == 0x52 {}
  lemma Entry_s() ensures "s" in KeyMap && KeyMap["s"] == 0x53 {}
  lemma Entry_t() ensures "t" in KeyMap && KeyMap["t"] == 0x54 {}
  lemma Entry_u() ensures "u" in KeyMap && KeyMap["u"] == 0x55 {}
  lemma Entry_v() ensures "v" in KeyMap && KeyMap["v"] == 0x56 {}
  lemma Entry_w() ensures "w" in KeyMap && KeyMap["w"] == 0x57 {}
  lemma Entry_x() ensures "x" in KeyMap && KeyMap["x"] == 0x58 {}
  lemma Entry_y() ensures "y" in KeyMap && KeyMap["y"] == 0x59 {}
  lemma Entry_z() ensures "z" in KeyMap && KeyMap["z"] == 0x5A {}

  /** An upper-case letter maps to the same code as its lower-case form. */
  lemma UpperLetterKeyCode(c: char)
    requires 'A' <= c <= 'Z'
    ensures KeyCode([c]) == Some(0x41 + (c as int - 'A' as int))
  {
    assert Lower([c]) == [(c as int + 32) as char];
    LetterKeyCode((c as int + 32) as char);
  }

  /** A digit maps to 0x30 plus its value. */
  lemma DigitKeyCode(c: char)
    requires '0' <= c <= '9'
    ensures KeyCode([c]) == Some(0x30 + (c as int - '0' as int))
  {
    assert Lower([c]) == [c];
    if c == '0' {
      assert [c] == "0";
      Entry_0();
    } else if c == '1' {
      assert [c] == "1";
      Entry_1();
    } else if c == '2' {
      assert [c] == "2";
      Entry_2();
    } else if c == '3' {
      assert [c] == "3";
      Entry_3();
    } else if c == '4' {
      assert [c] == "4";
      Entry_4();
    } else if c == '5' {
      assert [c] == "5";
      Entry_5();
    } else if c == '6' {
      assert [c] == "6";
      Entry_6();
    } else if c == '7' {
      assert [c] == "7";
      Entry_7();
    } else if c == '8' {
      assert [c] == "8";
      Entry_8();
    } else if c == '9' {
      assert [c] == "9";
      Entry_9();
    }
  }

  // One table entry per digit, for the same reason.
  lemma Entry_0() ensures "0" in KeyMap && KeyMap["0"] == 0x30 {}
  lemma Entry_1() ensures "1" in KeyMap && KeyMap["1"] == 0x31 {}
  lemma Entry_2() ensures "2" in KeyMap && KeyMap["2"] == 0x32 {}
  lemma Entry_3() ensures "3" in KeyMap && KeyMap["3"] == 0x33 {}
  lemma Entry_4() ensures "4" in KeyMap && KeyMap["4"] == 0x34 {}
  lemma Entry_5() ensures "5" in KeyMap && KeyMap["5"] == 0x35 {}
  lemma Entry_6() ensures "6" in KeyMap && KeyMap["6"] == 0x36 {}
  lemma Entry_7() ensures "7" in KeyMap && KeyMap["7"] == 0x37 {}
  lemma Entry_8() ensures "8" in KeyMap && KeyMap["8"] == 0x38 {}
  lemma Entry_9() ensures "9" in KeyMap && KeyMap["9"] == 0x39 {}

  /** "enter" and "return" name the same key, in any case. */
  lemma EnterIsReturn(name: string)
    requires Lower(name) == "enter" || Lower(name) == "return"
    ensures KeyCode(name) == Some(0x0D)
  {
    assert "enter" in OtherKeys && OtherKeys["enter"] == 0x0D;
    assert "return" in OtherKeys && OtherKeys["return"] == 0x0D;
  }

  /** No key name has 7 or 8 letters or more than 9, so a name of such a length is unknown. */
  lemma UnknownKeyCode(name: string)
    requires |name| == 7 || |name| == 8 || |name| > 9
    ensures KeyCode(name) == None
  {
    LetterKeysAreSingle();
    OtherKeysAreShort();
  }

  lemma LetterKeysAreSingle()
    ensures forall k :: k in LetterKeys ==> |k| == 1
  {
  }

  lemma OtherKeysAreShort()
    ensures forall k :: k in OtherKeys ==> |k| <= 6 || |k| == 9
  {
  }

  class BackgroundWindows {
    const mouse: Mouse.IndependentMouse
    const monitor: Performance.PerformanceMonitor
    const maxPostmessageFailures: nat := 3
    var hwnd: int
    var isEmbedded: bool
    var embeddedHwnd: int
    var isVirtualScreen: bool
    var windowDisplay: Option<Display>
    var clickMethod: ClickMethod
    var postmessageFailCount: nat

    function State(): Binding
      reads this
    {
      Binding(clickMethod, postmessageFailCount)
    }

    /** The counter never passes the limit and equals it exactly once the teleport click is
        selected; the embedded handle is recorded exactly for an embedded window. */
    ghost predicate Valid()
      reads this
    {
      && ValidBinding(State(), maxPostmessageFailures)
      && embeddedHwnd == (if isEmbedded then hwnd else 0)
    }

    /** No window yet, posted clicks, no failures. */
    constructor (mouse: Mouse.IndependentMouse, monitor: Performance.PerformanceMonitor)
      ensures Valid()
      ensures this.mouse == mouse && this.monitor == monitor
      ensures hwnd == 0 && !isEmbedded && !isVirtualScreen && windowDisplay == None
      ensures clickMethod == ViaPostMessage && postmessageFailCount == 0
    {
      this.mouse := mouse;
      this.monitor := monitor;
      hwnd := 0;
      isEmbedded := false;
      embeddedHwnd := 0;
      isVirtualScreen := false;
      windowDisplay := None;
      clickMethod := ViaPostMessage;
      postmessageFailCount := 0;
    }

    /**
     * Binds the device to a window: embedded iff it has a parent (an invalid handle counts
     * as not embedded); refreshes the topology, records the window's display and whether
     * it is a virtual one, and aims the mouse at it. The click binding is kept.
     */
    method InitHwnd(h: int, os: Os, metrics: Option<Metrics>)
      requires Valid()
      modifies this, mouse, mouse.vdm
      ensures Valid()
      ensures hwnd == h
      ensures isEmbedded <==> Find(os, h).Some? && Find(os, h).value.parent != 0
      ensures mouse.vdm.Current() == Refresh(metrics)
      ensures windowDisplay == WindowDisplay(Refresh(metrics), os, h)
      ensures isVirtualScreen <==> windowDisplay.Some? && !windowDisplay.value.isPrimary
      ensures windowDisplay.Some? ==> mouse.targetDisplay == windowDisplay
      ensures windowDisplay.None? ==> mouse.targetDisplay == old(mouse.targetDisplay)
      ensures State() == old(State())
      ensures mouse.inputMode == old(mouse.inputMode) && mouse.mainDisplay == old(mouse.mainDisplay)
      ensures mouse.virtualDisplay == old(mouse.virtualDisplay)
    {
      hwnd := h;
      var w := Find(os, h);
      if w.Some? && w.value.parent != 0 {
        isEmbedded := true;
        embeddedHwnd := h;
      } else {
        isEmbedded := false;
        embeddedHwnd := 0;
      }
      BindDisplay(h, os, metrics);
    }

    /** The display half of `init_hwnd`: refresh, look the window up, aim the mouse. */
    method BindDisplay(h: int, os: Os, metrics: Option<Metrics>)
      modifies this, mouse, mouse.vdm
      ensures mouse.vdm.Current() == Refresh(metrics)
      ensures windowDisplay == WindowDisplay(Refresh(metrics), os, h)
      ensures isVirtualScreen <==> windowDisplay.Some? && !windowDisplay.value.isPrimary
      ensures windowDisplay.Some? ==> mouse.targetDisplay == windowDisplay
      ensures windowDisplay.None? ==> mouse.targetDisplay == old(mouse.targetDisplay)
      ensures hwnd == old(hwnd) && isEmbedded == old(isEmbedded) && embeddedHwnd == old(embeddedHwnd)
      ensures State() == old(State())
      ensures mouse.inputMode == old(mouse.inputMode) && mouse.mainDisplay == old(mouse.mainDisplay)
      ensures mouse.virtualDisplay == old(mouse.virtualDisplay)
    {
      mouse.vdm.UpdateDisplaysInfo(metrics);
      var d := mouse.vdm.GetWindowDisplay(h, os);
      windowDisplay := d;
      if d.Some? {
        isVirtualScreen := !d.value.isPrimary;
        mouse.SetTargetDisplay(Mouse.DisplayValue(d.value));
      } else {
        // Reading the id of a missing display raises; the handler falls back to the main
        // display, which is missing too, and the mouse ignores a missing display.
        isVirtualScreen := false;
        assert mouse.vdm.mainDisplay == Refresh(metrics).main;
        windowDisplay := mouse.vdm.mainDisplay;
        mouse.SetTargetDisplay(Mouse.OtherArg);
      }
    }

    /** Move, press, release, leave, in that order; the first post that raises ends the
        sequence and the call reports failure. */
    method SendClickMessage(x: int, y: int, right: bool, os: Os, okPosts: nat) returns (ok: bool, os': Os)
      ensures ok <==> okPosts >= 4
      ensures os' == os.(posted := os.posted + ClickMessages(hwnd, x, y, right)[..Min(okPosts, 4)])
    {
      var ms := ClickMessages(hwnd, x, y, right);
      // The try block: post `okPosts` raises and skips the posts after it.
      os' := os;
      if okPosts > 0 {
        os' := Post(os', ms[0]);
        assert ms[..1] == [ms[0]];
      }
      if okPosts > 1 {
        os' := Post(os', ms[1]);
        assert ms[..2] == ms[..1] + [ms[1]];
      }
      if okPosts > 2 {
        os' := Post(os', ms[2]);
        assert ms[..3] == ms[..2] + [ms[2]];
      }
      if okPosts > 3 {
        os' := Post(os', ms[3]);
        assert ms[..4] == ms[..3] + [ms[3]];
      }
      ok := okPosts > 3;
    }

    /** The teleport click at screen (x, y); it never raises. */
    method SendInputClick(x: int, y: int, right: bool, os: Os, f: HwFaults) returns (ok: bool, os': Os)
      ensures ok <==> f.failAt >= 5
      ensures ok ==> os' == os.(injected := os.injected + Mouse.TeleportClick(Point(x, y), os.cursor, right))
      ensures f.failAt >= 1 && f.restoreOk ==> os'.cursor == os.cursor
      ensures os'.posted == os.posted && os'.windows == os.windows && os'.foreground == os.foreground
      ensures os'.injected == os.injected + Mouse.TeleportLog(Point(x, y), os.cursor, right, f)
      ensures os'.cursor == if 1 < f.failAt < 5 && !f.restoreOk then Point(x, y) else os.cursor
    {
      ok, os' := mouse.ClickBackgroundFallback(x, y, right, os, f);
    }

    /** The same click over the teleport click as written: it never succeeds, so neither
        does a touch that reaches it. */
    method SendInputClickAsWritten(x: int, y: int, right: bool, os: Os, f: HwFaults) returns (ok: bool, os': Os)
      ensures !ok
      ensures os'.posted == os.posted && os'.windows == os.windows && os'.foreground == os.foreground
      ensures os'.injected == os.injected + Mouse.AsWrittenLog(Point(x, y), os.cursor, right, f)
      ensures os'.cursor == if 1 < f.failAt && !f.restoreOk then Point(x, y) else os.cursor
    {
      ok, os' := mouse.ClickBackgroundFallbackAsWritten(x, y, right, os, f);
    }

    /**
     * A background touch. Without a window it is handed to the inherited implementation.
     * Otherwise the position is mapped to a clamped client point (failure when that raises);
     * in PostMessage mode the posted click is tried, a success resets the failure count and
     * a failure raises it by one, and the failure that reaches the limit selects the
     * teleport click for good and retries once with it at the raw position; in SendInput
     * mode the teleport click is used directly. A successful touch records its duration.
     */
    method Touch(pos: Pos, right: bool, os: Os, okPosts: nat, f: HwFaults, elapsed: real)
      returns (out: Outcome, os': Os)
      requires Valid() && monitor.Valid()
      modifies this, monitor
      ensures Valid() && monitor.Valid()
      ensures hwnd == old(hwnd) && isEmbedded == old(isEmbedded) && windowDisplay == old(windowDisplay)
      ensures isVirtualScreen == old(isVirtualScreen)
      ensures hwnd == 0 ==> out == Delegated && os' == os && State() == old(State())
      ensures hwnd != 0 && TouchClientPoint(os, hwnd, isEmbedded, pos).None? ==>
        out == Returned(false) && os' == os && State() == old(State())
      ensures hwnd != 0 && TouchClientPoint(os, hwnd, isEmbedded, pos).Some? ==>
        State() == AfterTouch(old(State()), okPosts >= 4, maxPostmessageFailures)
      ensures hwnd != 0 && TouchClientPoint(os, hwnd, isEmbedded, pos).Some? && old(clickMethod) == ViaPostMessage ==>
        var c := TouchClientPoint(os, hwnd, isEmbedded, pos).value;
        var sent := ClickMessages(hwnd, c.x, c.y, right)[..Min(okPosts, 4)];
        && os'.posted == os.posted + sent
        && (okPosts >= 4 ==> out == Returned(true) && os' == os.(posted := os.posted + sent))
        && (okPosts < 4 && clickMethod == ViaPostMessage ==> out == Returned(false) && os'.injected == os.injected)
        && (okPosts < 4 && clickMethod == ViaSendInput ==> out == Returned(f.failAt >= 5))
      ensures hwnd != 0 && TouchClientPoint(os, hwnd, isEmbedded, pos).Some? && old(clickMethod) == ViaSendInput ==>
        out == Returned(f.failAt >= 5) && os'.posted == os.posted
      ensures out == Returned(true) && old(clickMethod) == ViaSendInput ==>
        var p := TouchPoint(pos).value;
        os'.injected == os.injected + Mouse.TeleportClick(p, os.cursor, right) && os'.cursor == os.cursor
      ensures hwnd != 0 && TouchClientPoint(os, hwnd, isEmbedded, pos).Some? && clickMethod == ViaSendInput ==>
        var p := TouchPoint(pos).value;
        && os'.injected == os.injected + Mouse.TeleportLog(p, os.cursor, right, f)
        && os'.cursor == (if 1 < f.failAt < 5 && !f.restoreOk then p else os.cursor)
      ensures clickMethod == ViaPostMessage ==> os'.injected == os.injected && os'.cursor == os.cursor
      ensures os'.windows == os.windows && os'.foreground == os.foreground
      ensures out == Returned(true) ==>
        monitor.touchCount == old(monitor.touchCount) + 1
        && monitor.touchTimes == Performance.LastN(old(monitor.touchTimes) + [elapsed], monitor.maxHistory)
      ensures out != Returned(true) ==>
        monitor.touchCount == old(monitor.touchCount) && monitor.touchTimes == old(monitor.touchTimes)
      ensures monitor.snapshotTimes == old(monitor.snapshotTimes) && monitor.snapshotCount == old(monitor.snapshotCount)
      ensures monitor.errorCount == old(monitor.errorCount) && monitor.warningCount == old(monitor.warningCount)
      ensures monitor.startTime == old(monitor.startTime)
    {
      if hwnd == 0 {
        return Delegated, os;
      }
      // The window lookup, the unpacking, the conversion and the range repair.
      var c := TouchClientPoint(os, hwnd, isEmbedded, pos);
      if c.None? {
        return Returned(false), os;
      }
      var ok;
      ok, os' := TouchAt(c.value, TouchPoint(pos).value, right, os, okPosts, f, elapsed);
      out := Returned(ok);
    }

    /**
     * The delivery half of `touch`, at client point c: in PostMessage mode the posted click,
     * with the failure count reset on success and raised on failure, and the failure that
     * reaches the limit selecting the teleport click for good and retrying with it at the raw
     * screen point p; in SendInput mode the teleport click at p. A success is timed.
     */
    method TouchAt(c: Point, p: Point, right: bool, os: Os, okPosts: nat, f: HwFaults, elapsed: real)
      returns (ok: bool, os': Os)
      requires Valid() && monitor.Valid()
      modifies this, monitor
      ensures Valid() && monitor.Valid()
      ensures ok ==>
        monitor.touchCount == old(monitor.touchCount) + 1
        && monitor.touchTimes == Performance.LastN(old(monitor.touchTimes) + [elapsed], monitor.maxHistory)
      ensures !ok ==>
        monitor.touchCount == old(monitor.touchCount) && monitor.touchTimes == old(monitor.touchTimes)
      ensures monitor.snapshotTimes == old(monitor.snapshotTimes) && monitor.snapshotCount == old(monitor.snapshotCount)
      ensures monitor.errorCount == old(monitor.errorCount) && monitor.warningCount == old(monitor.warningCount)
      ensures monitor.startTime == old(monitor.startTime)
      ensures hwnd == old(hwnd) && isEmbedded == old(isEmbedded) && windowDisplay == old(windowDisplay)
      ensures isVirtualScreen == old(isVirtualScreen)
      ensures State() == AfterTouch(old(State()), okPosts >= 4, maxPostmessageFailures)
      ensures old(clickMethod) == ViaPostMessage ==>
        var sent := ClickMessages(hwnd, c.x, c.y, right)[..Min(okPosts, 4)];
        && os'.posted == os.posted + sent
        && (okPosts >= 4 ==> ok && os' == os.(posted := os.posted + sent))
        && (okPosts < 4 && clickMethod == ViaPostMessage ==> !ok && os'.injected == os.injected)
        && (okPosts < 4 && clickMethod == ViaSendInput ==> (ok <==> f.failAt >= 5))
      ensures old(clickMethod) == ViaSendInput ==> (ok <==> f.failAt >= 5) && os'.posted == os.posted
      ensures ok && old(clickMethod) == ViaSendInput ==>
        os'.injected == os.injected + Mouse.TeleportClick(p, os.cursor, right) && os'.cursor == os.cursor
      ensures clickMethod == ViaSendInput ==>
        && os'.injected == os.injected + Mouse.TeleportLog(p, os.cursor, right, f)
        && os'.cursor == (if 1 < f.failAt < 5 && !f.restoreOk then p else os.cursor)
        && (ok <==> f.failAt >= 5)
      ensures clickMethod == ViaPostMessage ==> os'.injected == os.injected && os'.cursor == os.cursor
      ensures os'.windows == os.windows && os'.foreground == os.foreground
    {
      if clickMethod == ViaPostMessage {
        ok, os' := SendClickMessage(c.x, c.y, right, os, okPosts);
        if ok {
          postmessageFailCount := 0;
        } else {
          postmessageFailCount := postmessageFailCount + 1;
          if postmessageFailCount >= maxPostmessageFailures {
            clickMethod := ViaSendInput;
            ok, os' := SendInputClick(p.x, p.y, right, os', f);
          }
        }
      } else {
        ok, os' := SendInputClick(p.x, p.y, right, os, f);
      }
      if ok {
        monitor.RecordTouch(elapsed);
      }
    }

    /**
     * The hardware click at a client point: the rectangle and cursor queries come first
     * and raise out of the call; then jump, press, release and jump back, where a raising
     * call triggers one unguarded jump back (raising again when that fails too).
     */
    method SendInputMouse(x: int, y: int, right: bool, os: Os, f: HwFaults) returns (out: Outcome, os': Os)
      ensures Find(os, hwnd).None? || f.failAt == 0 ==> out == Raised && os' == os
      ensures Find(os, hwnd).Some? && f.failAt >= 5 ==>
        var r := Find(os, hwnd).value.rect;
        out == Returned(true)
        && os' == os.(injected := os.injected + Mouse.TeleportClick(Point(r.left + x, r.top + y), os.cursor, right))
      ensures Find(os, hwnd).Some? && 1 <= f.failAt < 5 ==>
        (out == if f.restoreOk then Returned(false) else Raised)
      ensures Find(os, hwnd).Some? && 1 <= f.failAt < 5 && f.restoreOk ==> os'.cursor == os.cursor
      ensures out == Returned(true) ==> os'.cursor == os.cursor
      ensures Find(os, hwnd).Some? && f.failAt >= 1 ==>
        var r := Find(os, hwnd).value.rect;
        var q := Point(r.left + x, r.top + y);
        && os'.injected == os.injected + Mouse.TeleportLog(q, os.cursor, right, f)
        && os'.cursor == (if 1 < f.failAt < 5 && !f.restoreOk then q else os.cursor)
      ensures os'.posted == os.posted && os'.windows == os.windows && os'.foreground == os.foreground
    {
      var w := Find(os, hwnd);
      if w.None? || f.failAt == 0 {
        return Raised, os;
      }
      var target := Point(w.value.rect.left + x, w.value.rect.top + y);
      var current := os.cursor;
      ghost var plan := Mouse.TeleportClick(target, current, right);
      // The try block: call `f.failAt` raises and skips every call after it.
      os' := os;
      if f.failAt > 1 {
        os' := SetCursor(os', target);
        assert plan[..1] == [plan[0]];
      }
      if f.failAt > 2 {
        os' := Inject(os', MouseInput(Mouse.DownFlag(right), 0, 0, 0));
        assert plan[..2] == plan[..1] + [plan[1]];
      }
      if f.failAt > 3 {
        os' := Inject(os', MouseInput(Mouse.UpFlag(right), 0, 0, 0));
        assert plan[..3] == plan[..2] + [plan[2]];
      }
      if f.failAt > 4 {
        os' := SetCursor(os', current);
        assert plan[..4] == plan;
        return Returned(true), os';
      }
      // The handler's restore is not guarded: when it raises, so does the call.
      if !f.restoreOk {
        return Raised, os';
      }
      os' := SetCursor(os', current);
      out := Returned(false);
    }

    /** `_send_key_message`: one KEYDOWN or KEYUP with the code and a zero lParam. */
    method SendKeyMessage(keyCode: int, isDown: bool, os: Os) returns (os': Os)
      ensures os' == Post(os, Message(hwnd, if isDown then WM_KEYDOWN else WM_KEYUP, keyCode, 0))
    {
      if isDown {
        os' := Post(os, Message(hwnd, WM_KEYDOWN, keyCode, 0));
      } else {
        os' := Post(os, Message(hwnd, WM_KEYUP, keyCode, 0));
      }
    }

    /** A known key name (any case) with a non-zero code posts KEYDOWN then KEYUP with it;
        an unknown name, or no window, is handed to the inherited implementation; a raising
        post escapes. */
    method KeyEvent(keyname: string, os: Os, okPosts: nat) returns (out: Outcome, os': Os)
      ensures hwnd == 0 || KeyCode(keyname).None? || KeyCode(keyname).value == 0 ==> out == Delegated && os' == os
      ensures hwnd != 0 && KeyCode(keyname).Some? && KeyCode(keyname).value != 0 ==>
        var k := KeyCode(keyname).value;
        var ms := [Message(hwnd, WM_KEYDOWN, k, 0), Message(hwnd, WM_KEYUP, k, 0)];
        && out == (if okPosts >= 2 then Returned(true) else Raised)
        && os' == os.(posted := os.posted + ms[..Min(okPosts, 2)])
    {
      if hwnd == 0 {
        return Delegated, os;
      }
      var code := KeyCode(keyname);
      if code.None? || code.value == 0 {
        return Delegated, os;
      }
      ghost var ms := [Message(hwnd, WM_KEYDOWN, code.value, 0), Message(hwnd, WM_KEYUP, code.value, 0)];
      if okPosts == 0 {
        assert ms[..0] == [];
        return Raised, os;
      }
      os' := SendKeyMessage(code.value, true, os);
      if okPosts == 1 {
        return Raised, os';
      }
      os' := SendKeyMessage(code.value, false, os');
      assert ms[..2] == ms;
      out := Returned(true);
    }

    /** One WM_CHAR per character in text order; a raising post stops the loop and hands
        the whole text to the inherited implementation. */
    method Type(text: string, os: Os, okPosts: nat) returns (out: Outcome, os': Os)
      ensures hwnd == 0 ==> out == Delegated && os' == os
      ensures hwnd != 0 ==>
        && out == (if okPosts >= |text| then Returned(true) else Delegated)
        && os' == os.(posted := os.posted + CharMessages(hwnd, text)[..Min(okPosts, |text|)])
    {
      if hwnd == 0 {
        return Delegated, os;
      }
      ghost var ms := CharMessages(hwnd, text);
      os' := os;
      var i := 0;
      while i < |text|
        invariant 0 <= i <= |text| && i <= okPosts
        invariant os' == os.(posted := os.posted + ms[..i])
      {
        if i == okPosts {
          return Delegated, os';
        }
        assert ms[..i + 1] == ms[..i] + [ms[i]];
        os' := Post(os', Message(hwnd, WM_CHAR, text[i] as int, 0));
        i := i + 1;
      }
      assert ms[..|text|] == ms;
      out := Returned(true);
    }
  }
}
