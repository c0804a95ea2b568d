# GrainEye window core in Dafny

GrainEye is a Win32 desktop application for sand-grain analysis. Its main
window (GrainEYE.cpp) does three things that this project models and proves
properties of:

- **Chart layout** (`Chart`, chart.dfy). `DrawGraph` lays out a chart card:
  - the plot rectangle inset inside the card;
  - six horizontal and eleven vertical gridlines, with C's truncating integer division;
  - the two axes;
  - for the "Grain Size Distribution" title, one histogram bar per bin, scaled by the largest count;
  - for the "Cumulative Grain Size Curve" title, the polyline of running percentages.

  The model keeps the coordinates handed to GDI. The dataset is a parameter.
  The window passes the ten-bin sample (`Chart.GrainData`).
- **Owner-drawn buttons** (`MainWindow`, window.dfy, and `ButtonTheme`, theme.dfy).
  - `customButtons` is the registry of buttons with hover and press flags.
  - Mouse messages update those flags through `UpdateButtonState`.
  - `WM_MOUSELEAVE` clears the hover flags.
  - `WM_DRAWITEM` paints the first registered button matching the item.
  - `DrawModernButton` picks the colours from the enabled, hover and press state.
- **Workflow enablement** (`Workflow`, workflow.dfy, plus the `Window` handlers):
  - Analyze, Tag, Save and Restart start disabled.
  - Upload enables Analyze.
  - An analysis enables Save, Restart and Tag.
  - Fetch Location enables Tag.
  - Restart clears the image path and disables all four again.
  - The graphs are painted exactly when Save is enabled.

The Win32 and C vocabulary the code relies on is in `Win32` (win32.dfy):
- `RECT`/`POINT` and half-open `PtInRect`;
- C `/` on `int` (`CDiv`) and the `(int)` cast of a double (`Trunc`);
- `LOWORD`/`HIWORD` and `RGB`.

Doubles are exact reals. Window handles are the buttons' control identifiers, 1 to 6.

## Model

| member | source | states |
|---|---|---|
| Win32.PtInRect | GrainEYE.cpp:926 | Half-open containment. `NoPointInDisjointRects` shows that no point is in two disjoint rectangles. |
| Win32.NoPointInDisjointRects | GrainEYE.cpp:926 | With half-open `PtInRect`, no point is inside two rectangles that share no pixel. |
| Win32.CDiv | GrainEYE.cpp:616 | C integer division by a positive divisor truncates toward zero: `q*b <= a < q*b+b` for non-negative `a`, and the mirror bound for negative `a`. |
| Win32.Trunc | GrainEYE.cpp:658 | The `(int)` cast drops the fraction toward zero: `t <= r < t+1` for `r >= 0`, and `t-1 < r <= t` for `r < 0`. |
| Win32.TruncMonotone | GrainEYE.cpp:659 | The `(int)` cast preserves order. |
| Win32.TruncOfInt | GrainEYE.cpp:658 | The cast leaves a whole number unchanged. |
| Win32.LoWord | GrainEYE.cpp:908 | The x coordinate read from lParam is a 16-bit word. |
| Win32.HiWord | GrainEYE.cpp:909 | The y coordinate read from lParam is a 16-bit word. |
| Win32.LParamRoundTrip | GrainEYE.cpp:908-909 | LOWORD and HIWORD recover the two words that a mouse message packs into lParam. |
| Win32.RGB | GrainEYE.cpp:858-859 | A COLORREF built from three bytes fits in 24 bits. |
| Win32.RGBRoundTrip | GrainEYE.cpp:858-867 | The red, green and blue channels can be read back from an RGB colour. |
| Chart.PlotArea | GrainEYE.cpp:605-608 | The plot is the card less 90 px of width and 100 px of height. For a card at least that large, it lies strictly inside the card. |
| Chart.GridY | GrainEYE.cpp:616 | The height of horizontal gridline i. Its ends and ordering are stated by `GridYEnds` and `GridYInside`. |
| Chart.GridX | GrainEYE.cpp:623 | The position of vertical gridline i. Its ends and ordering are stated by `GridXEnds` and `GridXInside`. |
| Chart.GridYEnds | GrainEYE.cpp:615-616 | Horizontal gridline 0 is on the bottom edge and gridline 5 on the top edge. |
| Chart.GridXEnds | GrainEYE.cpp:622-623 | Vertical gridline 0 is on the left edge and gridline 10 on the right edge. |
| Chart.GridYInside | GrainEYE.cpp:615-619 | Horizontal gridlines climb as the index grows and stay between the plot's top and bottom. |
| Chart.GridXInside | GrainEYE.cpp:622-626 | Vertical gridlines move right as the index grows and stay between the plot's left and right. |
| Chart.HorizontalGridlines | GrainEYE.cpp:615-619 | The loop draws exactly six full-width lines at the gridline heights, from the bottom edge to the top edge. |
| Chart.VerticalGridlines | GrainEYE.cpp:622-626 | The loop draws exactly eleven full-height lines at the gridline positions, from the left edge to the right edge. |
| Chart.ScaleBounds | GrainEYE.cpp:658-659 | A fraction in [0, 1] of a pixel length, truncated, lies in [0, length]. |
| Chart.ScaleWhole | GrainEYE.cpp:658 | The whole of a length scales to the length itself. |
| Chart.ScaleMonotone | GrainEYE.cpp:659 | A larger fraction never gives a shorter length. |
| Chart.DiameterFraction | GrainEYE.cpp:659 | Diameters from 0.25 mm to 0.70 mm map into [0, 1] on the diameter axis. |
| Chart.MaxCount | GrainEYE.cpp:651-654 | The scan result is at least 0 and at least every count. It is 0 or one of the counts. |
| Chart.ScanMaxCount | GrainEYE.cpp:651-654 | The `maxCount` loop computes exactly `MaxCount` of the data. |
| Chart.BarWidth | GrainEYE.cpp:648 | Bars are a fifteenth of the plot width. `BarWidthFits` bounds it by the plot width. |
| Chart.BarHeight | GrainEYE.cpp:658 | A bin's bar height, relative to the largest count. `BarHeightBounds` puts it in [0, plot height], with the full height for the largest count. |
| Chart.BarLeft | GrainEYE.cpp:659 | A bar's left edge from its diameter. It is monotone (`BarLeftMonotone`), starts on the left edge (`FirstBarOnLeftEdge`) and, for diameters on the axis (0.25 to 0.70 mm), keeps the bar inside the plot (`BarInsidePlot`). |
| Chart.Bar | GrainEYE.cpp:660-662 | The rectangle drawn for a bin. `BarFitsPlot` anchors it on the bottom edge and, with non-negative counts, keeps its top inside the plot. |
| Chart.BarHeightBounds | GrainEYE.cpp:658 | A count between 0 and the largest count gives a height between 0 and the plot height. The largest count gives the full height. |
| Chart.BarFitsPlot | GrainEYE.cpp:657-662 | With non-negative counts every bar stands on the plot's bottom edge with its top inside the plot. The bar of the largest count reaches the top edge. |
| Chart.BarWidthFits | GrainEYE.cpp:648 | The bar width is between 0 and the plot width. |
| Chart.FirstBarOnLeftEdge | GrainEYE.cpp:659 | The 0.25 mm bar starts on the plot's left edge. |
| Chart.BarLeftMonotone | GrainEYE.cpp:659 | A larger diameter never moves a bar left. |
| Chart.BarInsidePlot | GrainEYE.cpp:659-662 | For diameters on the axis, no bar's right edge passes the plot's right edge. |
| Chart.BarsInDiameterOrder | GrainEYE.cpp:657-663 | With ascending diameters the bars run left to right. |
| Chart.HistogramBars | GrainEYE.cpp:648-663 | On success there is one bar per bin, scaled by the largest count. It fails exactly when the data are non-empty and no count is positive, which is the case that divides by a zero `maxCount`. |
| Chart.Total | GrainEYE.cpp:701-702 | The sum of the counts. `TotalStep` and `TotalGrows` state how prefixes add up. |
| Chart.CumulativePercent | GrainEYE.cpp:704-706 | The running percentage at a bin. `CumulativeNonDecreasing` and `CumulativeEndsAtHundred` prove it climbs to exactly 100. |
| Chart.TotalStep | GrainEYE.cpp:701-702 | Extending a prefix by one bin adds that bin's count to the total. |
| Chart.TotalGrows | GrainEYE.cpp:702 | With non-negative counts, a longer prefix never has a smaller total. |
| Chart.CumulativeNonDecreasing | GrainEYE.cpp:704-707 | With non-negative counts the running percentages never fall and stay within [0, 100]. |
| Chart.CumulativeEndsAtHundred | GrainEYE.cpp:704-707 | The last running percentage is exactly 100. |
| Chart.CumulativePercents | GrainEYE.cpp:699-707 | The accumulating loop yields, at each bin, the prefix total over the whole total, times 100. It fails exactly when the total is 0. |
| Chart.CurveX | GrainEYE.cpp:715 | A vertex's x from its diameter. It is monotone (`CurveXMonotone`) and starts on the left edge (`CurveStartsOnLeftEdge`). |
| Chart.CurveY | GrainEYE.cpp:716 | A vertex's y from its percentage. It is antitone, from bottom at 0 to top at 100 (`CurveYOrdered`). |
| Chart.CurveFitsPlot | GrainEYE.cpp:713-718 | With non-negative counts the curve never descends and its vertices' heights lie inside the plot. For diameters on the axis (0.25 to 0.70 mm), their x also lies inside the plot. The last vertex is on the top edge. |
| Chart.CurveXInside | GrainEYE.cpp:715 | A diameter on the axis gives a vertex between the plot's left and right edges. |
| Chart.CurveYOrdered | GrainEYE.cpp:716 | A higher percentage is drawn higher. 0 to 100 percent spans the plot bottom to top. |
| Chart.CurveStartsOnLeftEdge | GrainEYE.cpp:715 | The 0.25 mm vertex is on the plot's left edge. |
| Chart.CurveXMonotone | GrainEYE.cpp:715 | A larger diameter never moves a curve vertex left. |
| Chart.CurveInDiameterOrder | GrainEYE.cpp:713-718 | With ascending diameters the curve's vertices run left to right. |
| Chart.CurvePoints | GrainEYE.cpp:713-719 | The Polyline loop produces one vertex per bin, at the bin's diameter and running percentage. |
| Chart.DrawGraph | GrainEYE.cpp:573-778 | Every card gets the inset plot, the grid and the axes. The title selects bars, curve or neither. It fails exactly on the datasets that would divide by zero for the chosen figure. |
| Chart.GrainDataFacts | GrainEYE.cpp:639-640 | The sample has non-negative counts and ascending diameters. Its largest count is 25, in bin 3, and its counts sum to 101. |
| Chart.GrainDataDrawable | GrainEYE.cpp:651-654 | The sample has a positive count and a non-zero total, so neither chart divides by zero. |
| Chart.GrainHistogramPeak | GrainEYE.cpp:657-662 | In any histogram of the sample, bar 3 reaches the top of the plot. |
| Chart.GrainCurveEnd | GrainEYE.cpp:713-718 | In any cumulative curve of the sample, the last vertex is on the top of the plot. |
| Chart.RunningTotalsOfGrainData | GrainEYE.cpp:701-707 | The sample's running counts are 5, 15, 35, 60, 80, 90, 95, 98, 100, 101. |
| Chart.GrainDataPercents | GrainEYE.cpp:704-707 | The sample's running percentages are those running counts over 101, times 100. |
| ButtonTheme.ButtonScheme | GrainEYE.cpp:847-868 | The colour table of DrawModernButton. It equals an independent look-to-palette table (`SchemeFollowsLook`), and two states are painted alike if and only if they look alike (`SameSchemeIffSameLook`). |
| ButtonTheme.SchemeFollowsLook | GrainEYE.cpp:847-868 | The colours a button gets are exactly the palette entry of its look. Disabled beats pressed, which beats hovered. |
| ButtonTheme.DisabledIgnoresMouse | GrainEYE.cpp:847-860 | A disabled button is painted grey whatever its hover and press flags are. |
| ButtonTheme.EnabledBorderAndText | GrainEYE.cpp:861-868 | An enabled button always has a TAG_GREEN border and white text. |
| ButtonTheme.FillsDistinct | GrainEYE.cpp:857-865 | The four fill colours have different green channels. |
| ButtonTheme.SameSchemeIffSameLook | GrainEYE.cpp:847-868 | Two button states are painted alike if and only if they have the same look. |
| Workflow.Initial | GrainEYE.cpp:229-302 | At creation there is no path, and Analyze, Tag, Save and Restart are disabled. `RestartIsCreation` shows that Restart returns to it. |
| Workflow.Step | GrainEYE.cpp:309-374 | What each command does to the flags and path. `GraphsShownIffAnalysisStands`, `ClickKeepsConsistent` and `RestartIsCreation` state its properties. |
| Workflow.IsEnabled | GrainEYE.cpp:485 | Whether a button's window is enabled. Upload and Fetch Location always are. It decides the colours (`MainWindow.Window.DrawItem`) and the graphs (`GraphsShownIffAnalysisStands`). |
| Workflow.CommandOf | GrainEYE.cpp:307-309 | Only identifiers 1 to 6 select a command. Any other identifier does nothing. |
| Workflow.RestartIsCreation | GrainEYE.cpp:345-358 | Restart returns any state to exactly the state at creation. |
| Workflow.GraphsShownIffAnalysisStands | GrainEYE.cpp:484-488 | After any sequence of commands, the graphs are drawn if and only if some analysis has no later Restart. |
| Workflow.ClickKeepsConsistent | GrainEYE.cpp:307-375 | Assuming the file-open dialog returns a non-empty path, clicks on enabled buttons keep these invariants: Save and Restart are enabled together, they imply Analyze and Tag, and Analyze implies an image path. |
| Workflow.AnalyzeHandlerAloneIsUnguarded | GrainEYE.cpp:331-336 | The Analyze handler checks nothing itself. Without the platform's rule for disabled windows, it would enable Save with no image. |
| MainWindow.ScreenPoint | GrainEYE.cpp:908-916 | The screen point of a mouse message. `Win32.LParamRoundTrip` shows that it recovers the packed client coordinates. |
| MainWindow.Window.constructor | GrainEYE.cpp:221-303 | The six buttons are registered in creation order with radius 10, Fetch Location and Tag as always-green. The flags start in the creation state. |
| MainWindow.Window.RegisterButton | GrainEYE.cpp:893-902 | Appends exactly one record, neither hovered nor pressed, and changes nothing else. |
| MainWindow.Window.UpdateButtonState | GrainEYE.cpp:905-955 | Per message:<br>• a mouse move sets each hover flag to whether the cursor is in that button's window rectangle;<br>• a button-down does the same for the press flags;<br>• a button-up clears every press flag;<br>• any other message changes nothing.<br>Identities and the other flag are kept. With disjoint rectangles, at most one button is hovered or pressed. |
| MainWindow.Window.MouseLeave | GrainEYE.cpp:415-421 | Every hover flag is cleared and nothing else changes. |
| MainWindow.Window.DrawItem | GrainEYE.cpp:395-406 | Paints the first registered button whose handle matches, with the colours of its current state. Nothing is painted if and only if no button matches. |
| MainWindow.Window.DoAnalysis | GrainEYE.cpp:554-562 | The workflow state takes the Analyze step and the buttons are untouched. |
| MainWindow.Window.OnCommand | GrainEYE.cpp:307-375 | The flags and path change exactly as `Workflow.Step` says for the decoded command. The button registry is untouched. |
| MainWindow.Window.PaintGraphs | GrainEYE.cpp:484-488 | No graph is laid out unless Save is enabled. When it is, the histogram card at (520, 200, 330, 260) and the curve card at (870, 200, 330, 260) are laid out from the sample without error, with their frames, bars and vertices as `DrawGraph` defines them. The tallest bar and the end of the curve reach their plot tops. |

## Left out

- **Doubles.** Doubles are exact reals, so the rounding of IEEE-754 doubles before each `(int)` cast is not modelled. Where an exact result is a whole number, the double can fall just below it and truncate one pixel lower.
  - On the sample cards (plot 240 by 160, bar width 16), `(0.70 - 0.25) / 0.45` evaluates to 0.9999999999999999 in doubles, not 1.
  - So the program puts the 0.70 mm bar at x offset 223, where the model has 224, and the last curve vertex at x offset 239, where the model has 240.
  - `cumulativePercent[9]` is exactly 100.0 in doubles, so the last vertex is still on the plot top, as `Chart.GrainCurveEnd` states.
- **Integer width.** C `int` overflow is not modelled. All coordinates are unbounded integers.
- **Division by zero.** The code divides by zero when every count is at most 0 (`maxCount`), or when the counts sum to 0 (`total`), and behaves undefinedly. The model reports `DegenerateDataset` for exactly those datasets.
  - An empty dataset is not an error for the histogram: its loop divides nothing and draws no bar.
- **Degenerate surfaces.** The code never checks the card size, so the model lays out any card. The containment lemmas carry the non-inverted-plot precondition instead.
- **Windows-supplied geometry.** `GetWindowRect` and `ClientToScreen` are not called. Their answers are the `windowRect` and `clientOrigin` parameters of `MainWindow.Window.UpdateButtonState`.
- **Repaint and mouse tracking.** `InvalidateRect`, `UpdateWindow` and `TrackMouseEvent` only schedule repaints or mouse-leave messages. They are not modelled.
- **Disabled windows.** `IsWindowEnabled` is read from the model's flags. Windows' rule that a disabled window receives no clicks appears as `Workflow.Click`, not as message routing.
- **Pixel output.** `FillRoundedRect`, the border and text drawing, the ellipse markers, the background gradient, the label and title rectangles, fonts and pens are not modelled.
- **Dialogs and the image.** The file-open dialog's result is the `picked` parameter of `MainWindow.Window.OnCommand`. `ShowImage`, `uploadedImage` and GDI+ image loading are not modelled.
- **Fixed text.** The result-box and location texts, the Save and Tag message boxes, and `Sleep` are not modelled.
- **Unread flags.** `isAccent` and `alwaysGreen` are stored in each record but never read by the drawing code, so they are carried as data only.
- **Window and class registration.** `WinMain`, `RegisterClass`, fonts and the message loop are not modelled.
- **Handle lookup.** `WM_DRAWITEM` receives a `DRAWITEMSTRUCT`. The model takes only its `hwndItem`.
- MainWindow.Window.UpdateButtonState: does not model which buttons get invalidated, because invalidation only schedules a repaint.
