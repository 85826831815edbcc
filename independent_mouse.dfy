/**
 * The display-aware mouse: hardware input scaled into the target display's 0..65535
 * device units, posted mouse messages with a packed lParam, clicks built from a move, a
 * press and a release that stop at the first failure, and the cursor-teleport click that
 * saves the cursor, clicks elsewhere and puts the cursor back.
 */
module Mouse {
  import opened Wrappers
  import opened Win32
  import opened LParam
  import opened VirtualDisplay

  datatype InputMode = PostMessageMode | SendInputMode

  /** What `set_target_display` was given: a display record, a display id, or anything else. */
  datatype DisplayArg = DisplayValue(display: Display) | DisplayId(id: int) | OtherArg

  /** `set_input_mode` accepts exactly the two mode names. */
  function ParseInputMode(s: string): (r: Option<InputMode>)
    ensures r == Some(PostMessageMode) <==> s == "postmessage"
    ensures r == Some(SendInputMode) <==> s == "sendinput"
    ensures r.None? <==> s != "postmessage" && s != "sendinput"
  {
    if s == "postmessage" then Some(PostMessageMode)
    else if s == "sendinput" then Some(SendInputMode)
    else None
  }

  /** `max(0, min(t, size))`. */
  function ClampOffset(t: int, size: int): (r: int)
    ensures size >= 0 ==> 0 <= r <= size
    ensures 0 <= t <= size ==> r == t
    ensures t < 0 ==> r == 0
    ensures t >= size >= 0 ==> r == size
    ensures size < 0 ==> r == 0
  {
    if t < size then (if t < 0 then 0 else t) else (if size < 0 then 0 else size)
  }

  /** Absolute device units: the clamped offset from the display origin, scaled by
      65535 / size and truncated (not rounded). */
  function Scale(v: int, origin: int, size: int): (r: int)
    requires size != 0
    ensures size > 0 ==> 0 <= r <= 65535
    ensures size > 0 ==> r * size <= ClampOffset(v - origin, size) * 65535 < (r + 1) * size
    ensures size < 0 ==> r == 0
  {
    var t := ClampOffset(v - origin, size);
    if size > 0 then ScaleBounds(t, size); (t * 65535) / size else 0
  }

  lemma ScaleBounds(t: int, size: int)
    requires 0 <= t <= size && size > 0
    ensures 0 <= (t * 65535) / size <= 65535
    ensures ((t * 65535) / size) * size <= t * 65535 < ((t * 65535) / size + 1) * size
  {
    var a := t * 65535;
    var q := a / size;
    DivisionBracket(a, size);
    MulMonotone(t, size, 65535);
    if q > 65535 {
      MulMonotone(65536, q, size);
    }
  }

  /** Euclidean division brackets the dividend between two consecutive multiples. */
  lemma DivisionBracket(a: int, d: int)
    requires d > 0
    ensures (a / d) * d <= a < (a / d + 1) * d
  {
    var q := a / d;
    assert a == q * d + a % d;
    assert (q + 1) * d == q * d + d;
  }

  lemma MulMonotone(a: int, b: int, c: int)
    requires a <= b && c >= 0
    ensures a * c <= b * c
  {
    assert b * c - a * c == (b - a) * c;
  }

  /** The coordinates one `SendInput` record carries: scaled when the ABSOLUTE flag is set
      (None when that scaling raises: no target, or a zero-sized one), verbatim otherwise. */
  function Encode(dx: int, dy: int, flags: bv32, target: Option<Display>): (r: Option<(int, int)>)
    ensures flags & MOUSEEVENTF_ABSOLUTE == 0 ==> r == Some((dx, dy))
    ensures flags & MOUSEEVENTF_ABSOLUTE != 0 ==>
      (r.None? <==> target.None? || target.value.width == 0 || target.value.height == 0)
    ensures flags & MOUSEEVENTF_ABSOLUTE != 0 && target.Some? && target.value.width > 0 && target.value.height > 0 ==>
      r.Some? && 0 <= r.value.0 <= 65535 && 0 <= r.value.1 <= 65535
  {
    if flags & MOUSEEVENTF_ABSOLUTE != 0 then
      if target.None? || target.value.width == 0 || target.value.height == 0 then None
      else Some((Scale(dx, target.value.left, target.value.width), Scale(dy, target.value.top, target.value.height)))
    else Some((dx, dy))
  }

  /** The display hardware input is aimed at: the chosen one, else the foreground window's
      display, else the main display. */
  function DefaultTarget(target: Option<Display>, main: Option<Display>, t: Topology, os: Os): (r: Option<Display>)
    ensures target.Some? ==> r == target
    ensures target.None? && os.foreground == 0 ==> r == main
    ensures target.None? && os.foreground != 0 && t.main.Some? ==> r.Some?
    ensures target.None? && r.Some? ==> r == main || r.value in t.displays || r == t.main
  {
    if target.Some? then target
    else if os.foreground != 0 then WindowDisplay(t, os, os.foreground)
    else main
  }

  /** The first display with this id. */
  function FirstWithId(ds: seq<Display>, id: int): (r: Option<Display>)
    ensures r.Some? ==> r.value in ds && r.value.id == id
    ensures r.None? <==> forall d :: d in ds ==> d.id != id
  {
    if ds == [] then None else if ds[0].id == id then Some(ds[0]) else FirstWithId(ds[1..], id)
  }

  function MoveFlags(absolute: bool): bv32
  {
    if absolute then MOUSEEVENTF_MOVE | MOUSEEVENTF_ABSOLUTE else MOUSEEVENTF_MOVE
  }

  function DownFlag(right: bool): bv32
  {
    if right then MOUSEEVENTF_RIGHTDOWN else MOUSEEVENTF_LEFTDOWN
  }

  function UpFlag(right: bool): bv32
  {
    if right then MOUSEEVENTF_RIGHTUP else MOUSEEVENTF_LEFTUP
  }

  /** The lParam a mouse message carries when the caller leaves it 0: `(y << 16) | x`. */
  function MessageLParam(x: int, y: int, lParam: int): int
  {
    if lParam == 0 then Pack(x, y) else lParam
  }

  /** The two messages of a posted click at client coordinates (cx, cy). */
  function MessageClick(hwnd: int, cx: int, cy: int, right: bool): seq<Message>
  {
    var lp := Pack(cx, cy);
    if right then [Message(hwnd, WM_RBUTTONDOWN, 0, lp), Message(hwnd, WM_RBUTTONUP, 0, lp)]
    else [Message(hwnd, WM_LBUTTONDOWN, 0, lp), Message(hwnd, WM_LBUTTONUP, 0, lp)]
  }

  /** The three `SendInput` records of a click without a window: the move to the encoded
      point `e`, then the press and the release in place. */
  function HardwareClick(e: (int, int), absolute: bool, right: bool): seq<HwEvent>
  {
    [MouseInput(MoveFlags(absolute), e.0, e.1, 0), MouseInput(DownFlag(right), 0, 0, 0), MouseInput(UpFlag(right), 0, 0, 0)]
  }

  /** The records such a click leaves when only the first `okSends` calls succeed. An
      unencodable move injects nothing; without a target display the move is injected but
      reported as failed, which ends the click; otherwise every call up to the first
      failure is injected. */
  function HardwareClickLog(e: Option<(int, int)>, targeted: bool, absolute: bool, right: bool, okSends: nat): (r: seq<HwEvent>)
    ensures |r| <= 3
    ensures e.Some? && targeted && okSends >= 3 ==> r == HardwareClick(e.value, absolute, right)
    ensures e.Some? ==> r == HardwareClick(e.value, absolute, right)[..|r|]
  {
    if e.None? then []
    else
      var n := if !targeted then (if okSends < 1 then okSends else 1) else if okSends < 3 then okSends else 3;
      HardwareClick(e.value, absolute, right)[..n]
  }

  /** The button is left pressed (a press with no release) exactly when the move and the
      press got through to a target display and the release failed. */
  lemma HardwareClickLeavesButtonDown(e: Option<(int, int)>, targeted: bool, absolute: bool, right: bool, okSends: nat)
    ensures var r := HardwareClickLog(e, targeted, absolute, right, okSends);
      (MouseInput(DownFlag(right), 0, 0, 0) in r && MouseInput(UpFlag(right), 0, 0, 0) !in r)
      <==> (e.Some? && targeted && okSends == 2)
  {
    if e.Some? {
      var plan := HardwareClick(e.value, absolute, right);
      var down := MouseInput(DownFlag(right), 0, 0, 0);
      var up := MouseInput(UpFlag(right), 0, 0, 0);
      assert plan[0] != down && plan[0] != up && plan[1] == down && plan[2] == up && down != up;
      var n := |HardwareClickLog(e, targeted, absolute, right, okSends)|;
      if n == 0 {
        assert plan[..n] == [];
      } else if n == 1 {
        assert plan[..n] == [plan[0]];
      } else if n == 2 {
        assert plan[..n] == [plan[0], plan[1]];
      } else {
        assert plan[..n] == plan;
      }
    }
  }

  /** The hardware records of a teleport click at p that returns to `home`. */
  function TeleportClick(p: Point, home: Point, right: bool): seq<HwEvent>
  {
    [CursorTo(p), MouseInput(DownFlag(right), 0, 0, 0), MouseInput(UpFlag(right), 0, 0, 0), CursorTo(home)]
  }

  /** The hardware records the teleport click leaves when call `f.failAt` raises (see
      `HwFaults`): nothing when saving the cursor fails, the whole click when nothing
      fails, and otherwise the records issued before the fault followed by the jump home
      when the clean-up's restore works. */
  function TeleportLog(p: Point, home: Point, right: bool, f: HwFaults): (r: seq<HwEvent>)
    ensures |r| <= 4
    ensures f.failAt >= 1 && (f.failAt >= 5 || f.restoreOk) ==> r != [] && r[|r| - 1] == CursorTo(home)
  {
    if f.failAt == 0 then []
    else if f.failAt >= 5 then TeleportClick(p, home, right)
    else TeleportClick(p, home, right)[..f.failAt - 1] + (if f.restoreOk then [CursorTo(home)] else [])
  }

  /** The same log for the click as written: the delay after the press always raises, so
      at most the jump and the press precede the clean-up's restore. */
  function AsWrittenLog(p: Point, home: Point, right: bool, f: HwFaults): (r: seq<HwEvent>)
    ensures |r| <= 3
    ensures f.failAt >= 1 && f.restoreOk ==> r != [] && r[|r| - 1] == CursorTo(home)
  {
    if f.failAt == 0 then []
    else
      [CursorTo(p), MouseInput(DownFlag(right), 0, 0, 0)][..if f.failAt >= 3 then 2 else f.failAt - 1]
        + (if f.restoreOk then [CursorTo(home)] else [])
  }

  /** With the delay working, a release is issued exactly when the press and release calls
      both got through (every call up to the release succeeded). */
  lemma TeleportReleasesIffUpSucceeds(p: Point, home: Point, right: bool, f: HwFaults)
    ensures MouseInput(UpFlag(right), 0, 0, 0) in TeleportLog(p, home, right, f) <==> f.failAt >= 4
  {
    var up := MouseInput(UpFlag(right), 0, 0, 0);
    var plan := TeleportClick(p, home, right);
    assert plan[2] == up && plan[0] != up && plan[1] != up && plan[3] != up;
    if 1 <= f.failAt < 5 {
      assert up !in (if f.restoreOk then [CursorTo(home)] else []);
      if f.failAt == 4 {
        assert plan[..3][2] == up;
      } else if f.failAt == 3 {
        assert plan[..2] == [plan[0], plan[1]];
      } else if f.failAt == 2 {
        assert plan[..1] == [plan[0]];
      }
    }
  }

  /** As written, no release is ever issued, and once the press got through (calls 0-2
      succeeded) the button is left down. */
  lemma AsWrittenLeavesButtonDown(p: Point, home: Point, right: bool, f: HwFaults)
    ensures MouseInput(UpFlag(right), 0, 0, 0) !in AsWrittenLog(p, home, right, f)
    ensures f.failAt >= 3 ==> MouseInput(DownFlag(right), 0, 0, 0) in AsWrittenLog(p, home, right, f)
  {
    var up := MouseInput(UpFlag(right), 0, 0, 0);
    var pressed := [CursorTo(p), MouseInput(DownFlag(right), 0, 0, 0)];
    assert up !in pressed;
    if f.failAt >= 1 {
      var n := if f.failAt >= 3 then 2 else f.failAt - 1;
      assert forall e :: e in pressed[..n] ==> e in pressed;
      if f.failAt >= 3 {
        assert pressed[..2] == pressed;
      }
    }
  }

  /** The two versions leave the same records whenever a hardware call fails at or before
      the release, and differ exactly when the release would have succeeded. */
  lemma AsWrittenDiffersAfterPress(p: Point, home: Point, right: bool, f: HwFaults)
    ensures AsWrittenLog(p, home, right, f) == TeleportLog(p, home, right, f) <==> f.failAt <= 3
  {
    var plan := TeleportClick(p, home, right);
    if 1 <= f.failAt <= 3 {
      assert plan[..f.failAt - 1] == [CursorTo(p), MouseInput(DownFlag(right), 0, 0, 0)][..f.failAt - 1];
    } else if f.failAt >= 4 {
      AsWrittenLeavesButtonDown(p, home, right, f);
      TeleportReleasesIffUpSucceeds(p, home, right, f);
    }
  }

  // ---- Properties of the scaling ----

  /** A further-right (or further-down) point never gets a smaller device coordinate. */
  lemma ScaleMonotone(v1: int, v2: int, origin: int, size: int)
    requires size > 0 && v1 <= v2
    ensures Scale(v1, origin, size) <= Scale(v2, origin, size)
  {
    var t1 := ClampOffset(v1 - origin, size);
    var t2 := ClampOffset(v2 - origin, size);
    assert t1 <= t2;
    var q1 := Scale(v1, origin, size);
    var q2 := Scale(v2, origin, size);
    MulMonotone(t1, t2, 65535);
    if q1 > q2 {
      MulMonotone(q2 + 1, q1, size);
    }
  }

  /** The display's left/top edge maps to 0 and its right/bottom edge (or beyond) to 65535. */
  lemma ScaleEdges(origin: int, size: int, beyond: int)
    requires size > 0 && beyond >= 0
    ensures Scale(origin, origin, size) == 0
    ensures Scale(origin + size + beyond, origin, size) == 65535
  {
    assert ClampOffset(0, size) == 0;
    assert ClampOffset(size + beyond, size) == size;
    var q := Scale(origin + size + beyond, origin, size);
    if q < 65535 {
      MulMonotone(q + 1, 65535, size);
    }
  }

  /** The virtual display's centre: (2880, 540) on a 1920x1080 display at (1920, 0)
      becomes (32767, 32767) by truncation, where rounding would give 32768. */
  lemma VirtualCentreTruncates()
    ensures Scale(2880, 1920, 1920) == 32767 && Scale(540, 0, 1080) == 32767
  {
    assert ClampOffset(2880 - 1920, 1920) == 960;
    assert ClampOffset(540, 1080) == 540;
  }

  class IndependentMouse {
    /** The shared display manager the mouse asks for topology. */
    const vdm: VirtualDisplayManager
    var targetDisplay: Option<Display>
    var inputMode: InputMode
    var mainDisplay: Option<Display>
    var virtualDisplay: Option<Display>

    /** Refreshes the shared topology and caches its main and virtual displays; no target,
        PostMessage mode. */
    constructor (vdm: VirtualDisplayManager, metrics: Option<Metrics>)
      modifies vdm
      ensures this.vdm == vdm && vdm.Current() == Refresh(metrics)
      ensures targetDisplay == None && inputMode == PostMessageMode
      ensures mainDisplay == Refresh(metrics).main && virtualDisplay == Refresh(metrics).virtualDisplay
    {
      this.vdm := vdm;
      targetDisplay := None;
      inputMode := PostMessageMode;
      new;
      vdm.UpdateDisplaysInfo(metrics);
      mainDisplay := vdm.mainDisplay;
      virtualDisplay := vdm.virtualDisplay;
    }

    method UpdateDisplayInfo(metrics: Option<Metrics>)
      modifies this, vdm
      ensures vdm.Current() == Refresh(metrics)
      ensures mainDisplay == Refresh(metrics).main && virtualDisplay == Refresh(metrics).virtualDisplay
      ensures targetDisplay == old(targetDisplay) && inputMode == old(inputMode)
    {
      vdm.UpdateDisplaysInfo(metrics);
      mainDisplay := vdm.mainDisplay;
      virtualDisplay := vdm.virtualDisplay;
    }

    /** A display record is taken as is; an id selects the first display with that id and
        otherwise keeps the previous target; anything else keeps it too. */
    method SetTargetDisplay(arg: DisplayArg)
      modifies this
      ensures arg.DisplayValue? ==> targetDisplay == Some(arg.display)
      ensures arg.DisplayId? && FirstWithId(vdm.displays, arg.id).Some? ==>
        targetDisplay == FirstWithId(vdm.displays, arg.id)
      ensures arg.DisplayId? && FirstWithId(vdm.displays, arg.id).None? ==> targetDisplay == old(targetDisplay)
      ensures arg.OtherArg? ==> targetDisplay == old(targetDisplay)
      ensures inputMode == old(inputMode) && mainDisplay == old(mainDisplay) && virtualDisplay == old(virtualDisplay)
    {
      match arg {
        case DisplayValue(d) =>
          targetDisplay := Some(d);
        case DisplayId(id) =>
          var ds := vdm.displays;
          var i := 0;
          while i < |ds|
            invariant 0 <= i <= |ds|
            invariant FirstWithId(ds, id) == FirstWithId(ds[i..], id)
            invariant targetDisplay == old(targetDisplay)
          {
            if ds[i].id == id {
              targetDisplay := Some(ds[i]);
              return;
            }
            i := i + 1;
          }
        case OtherArg =>
      }
    }

    method SetTargetDisplayToVirtual()
      modifies this
      ensures targetDisplay == virtualDisplay
      ensures inputMode == old(inputMode) && mainDisplay == old(mainDisplay) && virtualDisplay == old(virtualDisplay)
    {
      targetDisplay := virtualDisplay;
    }

    /** The target is assigned before the log line reads the main display's id, which
        raises when there is no main display. */
    method SetTargetDisplayToMain() returns (raised: bool)
      modifies this
      ensures targetDisplay == mainDisplay
      ensures raised <==> mainDisplay.None?
      ensures inputMode == old(inputMode) && mainDisplay == old(mainDisplay) && virtualDisplay == old(virtualDisplay)
    {
      targetDisplay := mainDisplay;
      raised := mainDisplay.None?;
    }

    /** An unknown mode name leaves the mode as it was. */
    method SetInputMode(mode: string)
      modifies this
      ensures ParseInputMode(mode).Some? ==> inputMode == ParseInputMode(mode).value
      ensures ParseInputMode(mode).None? ==> inputMode == old(inputMode)
      ensures targetDisplay == old(targetDisplay) && mainDisplay == old(mainDisplay)
      ensures virtualDisplay == old(virtualDisplay)
    {
      if mode == "postmessage" || mode == "sendinput" {
        inputMode := if mode == "postmessage" then PostMessageMode else SendInputMode;
      }
    }

    /**
     * One `SendInput` record. The target is defaulted first (and kept). Nothing is sent
     * when the absolute scaling raises or `SendInput` fails (`sendOk` false). When the
     * record is sent the result is True only if a target exists (the final log line reads
     * the target's id).
     */
    method SendMouseInput(dx: int, dy: int, flags: bv32, data: int, os: Os, sendOk: bool)
      returns (ok: bool, os': Os)
      modifies this
      ensures targetDisplay == DefaultTarget(old(targetDisplay), mainDisplay, vdm.Current(), os)
      ensures inputMode == old(inputMode) && mainDisplay == old(mainDisplay) && virtualDisplay == old(virtualDisplay)
      ensures Encode(dx, dy, flags, targetDisplay).None? || !sendOk ==> !ok && os' == os
      ensures Encode(dx, dy, flags, targetDisplay).Some? && sendOk ==>
        var e := Encode(dx, dy, flags, targetDisplay).value;
        os' == Inject(os, MouseInput(flags, e.0, e.1, data)) && (ok <==> targetDisplay.Some?)
      ensures ok && flags & MOUSEEVENTF_ABSOLUTE != 0 && targetDisplay.value.width > 0 && targetDisplay.value.height > 0 ==>
        0 <= os'.injected[|os'.injected| - 1].dx <= 65535 && 0 <= os'.injected[|os'.injected| - 1].dy <= 65535
    {
      if targetDisplay.None? {
        if os.foreground != 0 {
          targetDisplay := vdm.GetWindowDisplay(os.foreground, os);
        } else {
          targetDisplay := mainDisplay;
        }
      }
      var mdx: int, mdy: int;
      if flags & MOUSEEVENTF_ABSOLUTE != 0 {
        if targetDisplay.None? || targetDisplay.value.width == 0 || targetDisplay.value.height == 0 {
          return false, os;
        }
        var d := targetDisplay.value;
        mdx := Scale(dx, d.left, d.width);
        mdy := Scale(dy, d.top, d.height);
      } else {
        mdx, mdy := dx, dy;
      }
      if !sendOk {
        return false, os;
      }
      os' := Inject(os, MouseInput(flags, mdx, mdy, data));
      ok := targetDisplay.Some?;
    }

    /** `GetWindowRect` then one posted WM_MOUSEMOVE at window-relative coordinates; an
        invalid handle makes the rectangle query raise. */
    method MoveMouseWithMessage(hwnd: int, x: int, y: int, os: Os, postOk: bool) returns (out: Outcome, os': Os)
      ensures Find(os, hwnd).None? ==> out == Raised && os' == os
      ensures Find(os, hwnd).Some? ==> out == Returned(postOk)
      ensures Find(os, hwnd).Some? && postOk ==>
        var r := Find(os, hwnd).value.rect;
        os' == Post(os, Message(hwnd, WM_MOUSEMOVE, 0, Pack(x - r.left, y - r.top)))
      ensures !postOk ==> os' == os
    {
      var w := Find(os, hwnd);
      if w.None? {
        return Raised, os;
      }
      var ok;
      ok, os' := SendMouseMessage(hwnd, x - w.value.rect.left, y - w.value.rect.top, WM_MOUSEMOVE, 0, 0, os, postOk);
      out := Returned(ok);
    }

    /** PostMessage mode with a handle posts a move message; otherwise one hardware move
        record, absolute or relative. */
    method MoveMouse(x: int, y: int, absolute: bool, hwnd: int, os: Os, postOk: bool, sendOk: bool)
      returns (out: Outcome, os': Os)
      modifies this
      ensures inputMode == old(inputMode) && mainDisplay == old(mainDisplay) && virtualDisplay == old(virtualDisplay)
      ensures inputMode == PostMessageMode && hwnd != 0 ==> targetDisplay == old(targetDisplay)
      ensures !(inputMode == PostMessageMode && hwnd != 0) ==>
        var e := Encode(x, y, MoveFlags(absolute), targetDisplay);
        && targetDisplay == DefaultTarget(old(targetDisplay), mainDisplay, vdm.Current(), os)
        && out.Returned?
        && (e.None? || !sendOk ==> !out.ok && os' == os)
        && (e.Some? && sendOk ==>
              os' == Inject(os, MouseInput(MoveFlags(absolute), e.value.0, e.value.1, 0))
              && (out.ok <==> targetDisplay.Some?))
      ensures inputMode == PostMessageMode && hwnd != 0 ==> os'.injected == os.injected
      ensures inputMode == PostMessageMode && hwnd != 0 && Find(os, hwnd).None? ==> out == Raised && os' == os
      ensures inputMode == PostMessageMode && hwnd != 0 && Find(os, hwnd).Some? ==>
        var r := Find(os, hwnd).value.rect;
        && out == Returned(postOk)
        && (postOk ==> os' == Post(os, Message(hwnd, WM_MOUSEMOVE, 0, Pack(x - r.left, y - r.top))))
        && (!postOk ==> os' == os)
    {
      if inputMode == PostMessageMode && hwnd != 0 {
        out, os' := MoveMouseWithMessage(hwnd, x, y, os, postOk);
      } else {
        var flags := MOUSEEVENTF_MOVE;
        if absolute {
          flags := flags | MOUSEEVENTF_ABSOLUTE;
        }
        var ok;
        ok, os' := SendMouseInput(x, y, flags, 0, os, sendOk);
        out := Returned(ok);
      }
    }

    /**
     * With a handle: a posted press and release at window-relative coordinates. Without:
     * a hardware move, press and release, stopping at the first failure. `okPosts` and
     * `okSends` count the posts and `SendInput` calls that succeed before one fails.
     */
    method Click(x: int, y: int, right: bool, absolute: bool, hwnd: int, os: Os, okPosts: nat, okSends: nat)
      returns (out: Outcome, os': Os)
      modifies this
      ensures inputMode == old(inputMode) && mainDisplay == old(mainDisplay) && virtualDisplay == old(virtualDisplay)
      ensures hwnd != 0 ==> targetDisplay == old(targetDisplay) && os'.injected == os.injected
      ensures hwnd != 0 && Find(os, hwnd).None? ==> out == Raised && os' == os
      ensures hwnd != 0 && Find(os, hwnd).Some? ==>
        var r := Find(os, hwnd).value.rect;
        var ms := MessageClick(hwnd, x - r.left, y - r.top, right);
        && (out == Returned(okPosts >= 2))
        && os' == os.(posted := os.posted + ms[..if okPosts < 2 then okPosts else 2])
      ensures hwnd == 0 ==>
        var t := DefaultTarget(old(targetDisplay), mainDisplay, vdm.Current(), os);
        var e := Encode(x, y, MoveFlags(absolute), t);
        && targetDisplay == t && out.Returned?
        && (out.ok <==> e.Some? && t.Some? && okSends >= 3)
        && os'.posted == os.posted && os'.windows == os.windows && os'.cursor == os.cursor
        && os'.foreground == os.foreground
        && os'.injected == os.injected + HardwareClickLog(e, t.Some?, absolute, right, okSends)
    {
      if hwnd != 0 {
        out, os' := ClickWithMessage(hwnd, x, y, right, os, okPosts);
        return;
      }
      var moved;
      moved, os' := MoveMouse(x, y, absolute, 0, os, false, 0 < okSends);
      if !moved.ok {
        return Returned(false), os';
      }
      assert targetDisplay.Some?;
      var ok;
      ok, os' := SendMouseInput(0, 0, DownFlag(right), 0, os', 1 < okSends);
      if !ok {
        return Returned(false), os';
      }
      ok, os' := SendMouseInput(0, 0, UpFlag(right), 0, os', 2 < okSends);
      if !ok {
        return Returned(false), os';
      }
      out := Returned(true);
    }

    /** One posted mouse message; a zero lParam is replaced by the packed coordinates. */
    method SendMouseMessage(hwnd: int, x: int, y: int, msg: int, wParam: int, lParam: int, os: Os, postOk: bool)
      returns (ok: bool, os': Os)
      ensures ok == postOk
      ensures ok ==> os' == Post(os, Message(hwnd, msg, wParam, MessageLParam(x, y, lParam)))
      ensures !ok ==> os' == os
      ensures ok && lParam == 0 && 0 <= x < 65536 ==>
        os'.posted[|os'.posted| - 1].lParam % 65536 == x && os'.posted[|os'.posted| - 1].lParam / 65536 == y
      ensures ok && lParam == 0 && -65536 <= x < 0 ==> os'.posted[|os'.posted| - 1].lParam == x
    {
      var lp := lParam;
      if lp == 0 {
        lp := Pack(x, y);
        if 0 <= x < 65536 {
          PackRoundTrip(x, y);
        } else if -65536 <= x < 0 {
          PackNegativeX(x, y);
        }
      }
      if !postOk {
        return false, os;
      }
      os' := Post(os, Message(hwnd, msg, wParam, lp));
      ok := true;
    }

    /** Press then release at window-relative coordinates; an invalid handle makes the
        rectangle query raise; the first failed post stops the click. */
    method ClickWithMessage(hwnd: int, x: int, y: int, right: bool, os: Os, okPosts: nat)
      returns (out: Outcome, os': Os)
      ensures Find(os, hwnd).None? ==> out == Raised && os' == os
      ensures Find(os, hwnd).Some? ==>
        var r := Find(os, hwnd).value.rect;
        var ms := MessageClick(hwnd, x - r.left, y - r.top, right);
        && out == Returned(okPosts >= 2)
        && os' == os.(posted := os.posted + ms[..if okPosts < 2 then okPosts else 2])
    {
      var w := Find(os, hwnd);
      if w.None? {
        return Raised, os;
      }
      var cx := x - w.value.rect.left;
      var cy := y - w.value.rect.top;
      var down := if right then WM_RBUTTONDOWN else WM_LBUTTONDOWN;
      var up := if right then WM_RBUTTONUP else WM_LBUTTONUP;
      ghost var ms := MessageClick(hwnd, cx, cy, right);
      var ok;
      ok, os' := SendMouseMessage(hwnd, cx, cy, down, 0, 0, os, 0 < okPosts);
      if !ok {
        assert ms[..0] == [];
        return Returned(false), os';
      }
      ok, os' := SendMouseMessage(hwnd, cx, cy, up, 0, 0, os', 1 < okPosts);
      if !ok {
        assert ms[..1] == [ms[0]];
        return Returned(false), os';
      }
      assert ms[..2] == ms;
      out := Returned(true);
    }

    /**
     * The teleport click with its delay working: save the cursor (call 0), jump to (x, y)
     * (1), press (2), release (3), jump back (4). A raising call leaves the sequence; the
     * cleanup then jumps back when the save had happened and `restoreOk`.
     */
    method ClickBackgroundFallback(x: int, y: int, right: bool, os: Os, f: HwFaults) returns (ok: bool, os': Os)
      ensures ok <==> f.failAt >= 5
      ensures ok ==> os' == os.(injected := os.injected + TeleportClick(Point(x, y), os.cursor, right))
      ensures ok ==> os'.cursor == os.cursor
      ensures f.failAt >= 1 && f.restoreOk ==> os'.cursor == os.cursor
      ensures f.failAt == 0 ==> os' == os
      ensures 1 <= f.failAt < 5 ==>
        var done := TeleportClick(Point(x, y), os.cursor, right)[..f.failAt - 1];
        os'.injected == os.injected + done + (if f.restoreOk then [CursorTo(os.cursor)] else [])
      ensures os'.windows == os.windows && os'.posted == os.posted && os'.foreground == os.foreground
      ensures os'.injected == os.injected + TeleportLog(Point(x, y), os.cursor, right, f)
      ensures os'.cursor == if 1 < f.failAt < 5 && !f.restoreOk then Point(x, y) else os.cursor
    {
      if f.failAt == 0 {
        return false, os;
      }
      var original := os.cursor;
      ghost var plan := TeleportClick(Point(x, y), original, right);
      // The try block: call `f.failAt` raises and skips every call after it.
      os' := os;
      if f.failAt > 1 {
        os' := SetCursor(os', Point(x, y));
        assert plan[..1] == [plan[0]];
      }
      if f.failAt > 2 {
        os' := Inject(os', MouseInput(DownFlag(right), 0, 0, 0));
        assert plan[..2] == plan[..1] + [plan[1]];
      }
      if f.failAt > 3 {
        os' := Inject(os', MouseInput(UpFlag(right), 0, 0, 0));
        assert plan[..3] == plan[..2] + [plan[2]];
      }
      if f.failAt > 4 {
        os' := SetCursor(os', original);
        assert plan[..4] == plan;
        return true, os';
      }
      if f.restoreOk {
        os' := SetCursor(os', original);
      }
      ok := false;
    }

    /**
     * The teleport click as the module is written: the delay after the press names a
     * module that is never imported, so every run that gets past the press raises there,
     * jumps back (when `restoreOk`) and reports failure with the button still held.
     */
    method ClickBackgroundFallbackAsWritten(x: int, y: int, right: bool, os: Os, f: HwFaults) returns (ok: bool, os': Os)
      ensures !ok
      ensures f.failAt == 0 ==> os' == os
      ensures f.failAt >= 3 ==>
        os'.injected == os.injected + [CursorTo(Point(x, y)), MouseInput(DownFlag(right), 0, 0, 0)]
          + (if f.restoreOk then [CursorTo(os.cursor)] else [])
      ensures os'.windows == os.windows && os'.posted == os.posted && os'.foreground == os.foreground
      ensures os'.injected == os.injected + AsWrittenLog(Point(x, y), os.cursor, right, f)
      ensures os'.cursor == if 1 < f.failAt && !f.restoreOk then Point(x, y) else os.cursor
    {
      ghost var pressed := [CursorTo(Point(x, y)), MouseInput(DownFlag(right), 0, 0, 0)];
      if f.failAt == 0 {
        return false, os;
      }
      var original := os.cursor;
      os' := os;
      if f.failAt > 1 {
        os' := SetCursor(os', Point(x, y));
        if f.failAt > 2 {
          os' := Inject(os', MouseInput(DownFlag(right), 0, 0, 0));
          // The delay raises here: the release and the jump back are never reached.
        }
      }
      if f.restoreOk {
        os' := SetCursor(os', original);
      }
      ok := false;
    }
  }
}
