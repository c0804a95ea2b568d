/**
  The main window's own state, as WndProc and its helpers change it: the
  `customButtons` vector of owner-drawn buttons with their hover and press
  flags, the enabled flags of the workflow buttons and the image path.
  Window handles are integers (the buttons' control identifiers); where the
  source asks Windows for geometry (GetWindowRect, ClientToScreen) the
  answer is a parameter.
*/
module MainWindow {
  import opened Wrappers
  import opened Win32
  import opened ButtonTheme
  import opened Workflow
  import opened Chart

  /** One entry of `customButtons`. */
  datatype CustomButton = CustomButton(
    hwnd: int,
    isHovered: bool,
    isPressed: bool,
    cornerRadius: int,
    isAccent: bool,     // stored, never read by the drawing code
    alwaysGreen: bool)  // stored, never read by the drawing code

  /** The same button, whatever its hover and press flags. */
  predicate SameButton(a: CustomButton, b: CustomButton) {
    a.hwnd == b.hwnd && a.cornerRadius == b.cornerRadius && a.isAccent == b.isAccent && a.alwaysGreen == b.alwaysGreen
  }

  /** A freshly registered button: neither hovered nor pressed. */
  function Registered(hwnd: int, cornerRadius: int, isAccent: bool, alwaysGreen: bool): CustomButton {
    CustomButton(hwnd, false, false, cornerRadius, isAccent, alwaysGreen)
  }

  /** How DrawModernButton paints a button: its three colours and its corner radius. */
  datatype ButtonFace = ButtonFace(colors: Scheme, cornerRadius: int)

  /**
    The cursor of a mouse message in screen coordinates: the client point
    packed in lParam (LOWORD, HIWORD) moved by the client area's screen
    origin, as ClientToScreen does.
  */
  function ScreenPoint(lParam: int, clientOrigin: Point): Point {
    Point(LoWord(lParam) + clientOrigin.x, HiWord(lParam) + clientOrigin.y)
  }

  /** The buttons' window rectangles share no pixel. */
  predicate RectsDisjoint(buttons: seq<CustomButton>, windowRect: int -> Rect) {
    forall i, j :: 0 <= i < j < |buttons| ==> Disjoint(windowRect(buttons[i].hwnd), windowRect(buttons[j].hwnd))
  }

  /** Entry i is the first registered button with handle `hwnd`. */
  predicate FirstMatch(buttons: seq<CustomButton>, hwnd: int, i: int) {
    0 <= i < |buttons| && buttons[i].hwnd == hwnd && forall j :: 0 <= j < i ==> buttons[j].hwnd != hwnd
  }

  predicate AtMostOneHovered(buttons: seq<CustomButton>) {
    forall i, j :: 0 <= i < j < |buttons| ==> !(buttons[i].isHovered && buttons[j].isHovered)
  }

  predicate AtMostOnePressed(buttons: seq<CustomButton>) {
    forall i, j :: 0 <= i < j < |buttons| ==> !(buttons[i].isPressed && buttons[j].isPressed)
  }

  class Window {
    var customButtons: seq<CustomButton>
    var imagePath: string
    var analyzeEnabled: bool
    var saveEnabled: bool
    var restartEnabled: bool
    var tagEnabled: bool

    /** The workflow state these fields hold. */
    function Flags(): State
      reads this
    {
      State(imagePath, analyzeEnabled, saveEnabled, restartEnabled, tagEnabled)
    }

    /** How DrawModernButton paints a registered button in the current state. */
    function FaceOf(b: CustomButton): ButtonFace
      reads this
    {
      ButtonFace(ButtonScheme(IsEnabled(Flags(), b.hwnd), b.isHovered, b.isPressed), b.cornerRadius)
    }

    /**
      WM_CREATE: the six owner-drawn buttons are registered in creation
      order, and Analyze, Tag, Save and Restart are created disabled.
    */
    constructor ()
      ensures Flags() == Initial
      ensures customButtons == [
        Registered(UPLOAD_ID, 10, false, false), Registered(ANALYZE_ID, 10, false, false),
        Registered(FETCH_LOCATION_ID, 10, false, true), Registered(TAG_ID, 10, false, true),
        Registered(SAVE_ID, 10, false, false), Registered(RESTART_ID, 10, false, false)]
    {
      customButtons := [];
      imagePath := "";
      analyzeEnabled, saveEnabled, restartEnabled, tagEnabled := false, false, false, false;
      new;
      RegisterButton(UPLOAD_ID, 10);
      RegisterButton(ANALYZE_ID, 10);
      RegisterButton(FETCH_LOCATION_ID, 10, false, true);
      RegisterButton(TAG_ID, 10, false, true);
      RegisterButton(SAVE_ID, 10);
      RegisterButton(RESTART_ID, 10);
    }

    /** RegisterButton: appends a record with hover and press cleared. */
    method RegisterButton(hwnd: int, cornerRadius: int := 8, isAccent: bool := false, alwaysGreen: bool := false)
      modifies this
      ensures customButtons == old(customButtons) + [Registered(hwnd, cornerRadius, isAccent, alwaysGreen)]
      ensures Flags() == old(Flags())
    {
      var btn := CustomButton(hwnd, false, false, cornerRadius, isAccent, alwaysGreen);
      customButtons := customButtons + [btn];
    }

    /**
      UpdateButtonState: for a mouse message, rewrites each button's hover
      or press flag from whether the cursor is in that button's window
      rectangle; every other message changes nothing.
    */
    method UpdateButtonState(msg: int, lParam: int, clientOrigin: Point, windowRect: int -> Rect)
      modifies this
      ensures Flags() == old(Flags())
      ensures |customButtons| == |old(customButtons)|
      ensures forall i :: 0 <= i < |customButtons| ==> SameButton(customButtons[i], old(customButtons[i]))
      ensures msg == WM_MOUSEMOVE ==> forall i :: 0 <= i < |customButtons| ==>
        && customButtons[i].isHovered == PtInRect(windowRect(customButtons[i].hwnd), ScreenPoint(lParam, clientOrigin))
        && customButtons[i].isPressed == old(customButtons[i].isPressed)
      ensures msg == WM_LBUTTONDOWN ==> forall i :: 0 <= i < |customButtons| ==>
        && customButtons[i].isPressed == PtInRect(windowRect(customButtons[i].hwnd), ScreenPoint(lParam, clientOrigin))
        && customButtons[i].isHovered == old(customButtons[i].isHovered)
      ensures msg == WM_LBUTTONUP ==> forall i :: 0 <= i < |customButtons| ==>
        !customButtons[i].isPressed && customButtons[i].isHovered == old(customButtons[i].isHovered)
      ensures msg != WM_MOUSEMOVE && msg != WM_LBUTTONDOWN && msg != WM_LBUTTONUP ==>
        customButtons == old(customButtons)
      ensures msg == WM_MOUSEMOVE && RectsDisjoint(customButtons, windowRect) ==> AtMostOneHovered(customButtons)
      ensures msg == WM_LBUTTONDOWN && RectsDisjoint(customButtons, windowRect) ==> AtMostOnePressed(customButtons)
    {
      if !(msg == WM_MOUSEMOVE || msg == WM_LBUTTONDOWN || msg == WM_LBUTTONUP) {
        return;
      }
      var screenPt := ScreenPoint(lParam, clientOrigin);
      var i := 0;
      while i < |customButtons|
        invariant 0 <= i <= |customButtons| == |old(customButtons)|
        invariant Flags() == old(Flags())
        invariant forall k :: 0 <= k < |customButtons| ==> SameButton(customButtons[k], old(customButtons[k]))
        invariant forall k :: i <= k < |customButtons| ==> customButtons[k] == old(customButtons[k])
        invariant msg == WM_MOUSEMOVE ==> forall k :: 0 <= k < i ==>
          && customButtons[k].isHovered == PtInRect(windowRect(customButtons[k].hwnd), screenPt)
          && customButtons[k].isPressed == old(customButtons[k].isPressed)
        invariant msg == WM_LBUTTONDOWN ==> forall k :: 0 <= k < i ==>
          && customButtons[k].isPressed == PtInRect(windowRect(customButtons[k].hwnd), screenPt)
          && customButtons[k].isHovered == old(customButtons[k].isHovered)
        invariant msg == WM_LBUTTONUP ==> forall k :: 0 <= k < i ==>
          !customButtons[k].isPressed && customButtons[k].isHovered == old(customButtons[k].isHovered)
      {
        var btn := customButtons[i];
        var rc := windowRect(btn.hwnd);
        if msg == WM_MOUSEMOVE {
          btn := btn.(isHovered := PtInRect(rc, screenPt));
        } else if msg == WM_LBUTTONDOWN {
          btn := btn.(isPressed := PtInRect(rc, screenPt));
        } else if btn.isPressed {
          btn := btn.(isPressed := false);
        }
        customButtons := customButtons[i := btn];
        i := i + 1;
      }
      if RectsDisjoint(customButtons, windowRect) {
        forall j, k | 0 <= j < k < |customButtons|
          ensures !PtInRect(windowRect(customButtons[j].hwnd), screenPt) || !PtInRect(windowRect(customButtons[k].hwnd), screenPt)
        {
          NoPointInDisjointRects(windowRect(customButtons[j].hwnd), windowRect(customButtons[k].hwnd), screenPt);
        }
      }
    }

    /** WM_MOUSELEAVE: every hover flag is cleared; nothing else changes. */
    method MouseLeave()
      modifies this
      ensures Flags() == old(Flags())
      ensures |customButtons| == |old(customButtons)|
      ensures forall i :: 0 <= i < |customButtons| ==> customButtons[i] == old(customButtons[i]).(isHovered := false)
    {
      var i := 0;
      while i < |customButtons|
        invariant 0 <= i <= |customButtons| == |old(customButtons)|
        invariant Flags() == old(Flags())
        invariant forall k :: 0 <= k < i ==> customButtons[k] == old(customButtons[k]).(isHovered := false)
        invariant forall k :: i <= k < |customButtons| ==> customButtons[k] == old(customButtons[k])
      {
        if customButtons[i].isHovered {
          customButtons := customButtons[i := customButtons[i].(isHovered := false)];
        }
        i := i + 1;
      }
    }

    /**
      WM_DRAWITEM: the first registered button whose handle is the item's
      is painted; an item that is not a registered button is not.
    */
    method DrawItem(hwndItem: int) returns (face: Option<ButtonFace>)
      ensures face.None? <==> forall i :: 0 <= i < |customButtons| ==> customButtons[i].hwnd != hwndItem
      ensures face.Some? ==> exists i :: FirstMatch(customButtons, hwndItem, i) && face.value == FaceOf(customButtons[i])
    {
      for i := 0 to |customButtons|
        invariant forall j :: 0 <= j < i ==> customButtons[j].hwnd != hwndItem
      {
        var btn := customButtons[i];
        if btn.hwnd == hwndItem {
          var enabled := IsEnabled(Flags(), btn.hwnd);
          return Some(ButtonFace(ButtonScheme(enabled, btn.isHovered, btn.isPressed), btn.cornerRadius));
        }
      }
      return None;
    }

    /** DoAnalysis: a finished analysis enables Save, Restart and Tag. */
    method DoAnalysis()
      modifies this
      ensures Flags() == Step(old(Flags()), Analyze)
      ensures customButtons == old(customButtons)
    {
      saveEnabled := true;
      restartEnabled := true;
      tagEnabled := true;
    }

    /**
      WM_COMMAND. `picked` is what the file-open dialog returns when the
      command is Upload. Save and Tag only show a message box.
    */
    method OnCommand(wParam: int, picked: Option<string>)
      modifies this
      ensures Flags() == Step(old(Flags()), CommandOf(wParam, picked))
      ensures customButtons == old(customButtons)
    {
      var id := LoWord(wParam);
      if id == UPLOAD_ID {
        if picked.Some? {
          imagePath := picked.value;
          analyzeEnabled := true;
        }
      } else if id == ANALYZE_ID {
        DoAnalysis();
      } else if id == RESTART_ID {
        imagePath := "";
        analyzeEnabled := false;
        saveEnabled := false;
        restartEnabled := false;
        tagEnabled := false;
      } else if id == FETCH_LOCATION_ID {
        tagEnabled := true;
      }
    }

    /**
      The graph part of WM_PAINT: both charts are laid out exactly when Save
      is enabled. Both lay out without error; the tallest bar and the end of
      the cumulative curve reach the top of their plots.
    */
    method PaintGraphs() returns (graphs: seq<Result<Layout, ChartError>>)
      ensures !IsEnabled(Flags(), SAVE_ID) ==> graphs == []
      ensures IsEnabled(Flags(), SAVE_ID) ==>
        && |graphs| == 2 && graphs[0].Success? && graphs[1].Success?
        && graphs[0].value.figure.Histogram? && |graphs[0].value.figure.bars| == 10
        && graphs[0].value.figure.bars[3].top == graphs[0].value.plot.top
        && graphs[1].value.figure.Curve? && |graphs[1].value.figure.points| == 10
        && graphs[1].value.figure.points[9].y == graphs[1].value.plot.top
      ensures IsEnabled(Flags(), SAVE_ID) ==>
        && FrameOf(520, 200, 330, 260, graphs[0].value)
        && BarsOf(graphs[0].value.plot, GrainData, graphs[0].value.figure.bars)
        && FrameOf(870, 200, 330, 260, graphs[1].value)
        && CurveOf(graphs[1].value.plot, GrainData, graphs[1].value.figure.points)
    {
      graphs := [];
      if IsEnabled(Flags(), SAVE_ID) {
        GrainDataDrawable();
        assert HISTOGRAM_TITLE[0] != CURVE_TITLE[0];
        var histogram := DrawGraph(520, 200, 330, 260, HISTOGRAM_TITLE, GrainData);
        var curve := DrawGraph(870, 200, 330, 260, CURVE_TITLE, GrainData);
        GrainHistogramPeak(histogram.value.plot, histogram.value.figure.bars);
        GrainCurveEnd(curve.value.plot, curve.value.figure.points);
        graphs := [histogram, curve];
      }
    }
  }
}
