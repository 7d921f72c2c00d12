# OpenCV colour detection: the colour window and the largest-region choice

The program is a live colour tracker. The user clicks a pixel of the camera
image. `set_color` turns that pixel's (hue, saturation, value) sample into a
window: a low and a high bound per HSV channel. It then writes the six bounds
into six trackbars. Every frame, the main loop reads the trackbars, masks the
frame with them, finds the mask's contours and boxes the one with the largest
area.

This project models the parts of that program that are the program's own
logic rather than calls into OpenCV:

- `hsv_window.dfy` (module `HsvWindow`): the window arithmetic of `set_color`.
  The fixed half-widths are hue 18, saturation 32 and value 40. The channel
  limits are 179 for hue and 255 for saturation and value. The clamp step is
  modelled exactly as written: one `if/elif` chain. It anchors only the first
  out-of-range bound to its limit, testing them in the order low hue, low
  saturation, low value, high hue, high saturation, high value.
- `slider_panel.dfy` (module `SliderPanel`): the six trackbars as a class with
  six fields. The constructor sets them to the initial tuple
  (0, 0, 0, 179, 255, 255). `SetColor` runs the imperative body of
  `set_color` and overwrites all six fields. It is proved to store exactly the
  window that `HsvWindow.DeriveWindow` specifies.
- `contour_select.dfy` (module `ContourSelect`): choosing the largest contour.
  Python's `max` with a key returns the first element of largest area. The
  model takes the contour areas as given numbers. Nothing is chosen when the
  contour list is empty, matching the non-empty guard.

Contour areas are `real`s because `cv2.contourArea` returns a float. The sample
and the bounds are mathematical integers.

## Model

| member | source | states |
|---|---|---|
| HsvWindow.Unclamped | ColorDetection.py:13-24 | Before clamping, each channel's window is centred on the sample. Its half-width is 18 for hue, 32 for saturation and 40 for value. |
| HsvWindow.FirstOutOfRange | ColorDetection.py:27-38 | Picks the branch the chain takes. It gives the first bound, in chain order, that fails its test (a low bound below 0, a high bound above 179/255/255). It gives 6 when every bound passes. |
| HsvWindow.ClampFirst | ColorDetection.py:26-38 | The chain as written. The first out-of-range bound is set to its limit. Every other bound keeps its unclamped value, whether in range or not. |
| HsvWindow.ClampFirstChangesAtMostOne | ColorDetection.py:27-38 | The chain changes at most one bound. A bound it changes was out of range and is now exactly its limit. It leaves the window unchanged exactly when all six bounds pass their tests. |
| HsvWindow.DeriveWindow | ColorDetection.py:11-38 | The window handed to the sliders. Each bound is the sample plus or minus its channel's half-width, except the first out-of-range one, which is its limit. The low hue bound is therefore always clamped at 0. |
| HsvWindow.DeriveWindowOrdered | ColorDetection.py:19-38 | For a sample with hue in 0..179 and saturation and value in 0..255, low <= high in every channel of the derived window. |
| HsvWindow.DeriveWindowNoClamp | ColorDetection.py:19-38 | When the sample is far enough from every channel limit that no bound is out of range, the derived window is the unclamped window, and it lies within the slider ranges. |
| HsvWindow.DeriveWindowExamples | ColorDetection.py:19-38 | (100, 200, 50) gives (82, 168, 10)-(118, 232, 90). (5, 10, 5) gives (0, -22, -35)-(23, 42, 45): only the low hue bound is clamped. (175, 250, 250) gives (157, 218, 210)-(179, 282, 290): only the high hue bound is clamped. |
| HsvWindow.DeriveWindowMayLeaveRange | ColorDetection.py:19-31 | A legal sample, (5, 10, 5), yields a window outside the slider ranges. |
| HsvWindow.ClampEach | ColorDetection.py:26-38 | Clamping as the comment at line 26 describes it. Every out-of-range bound becomes its limit and every in-range bound is kept. No bound is left out of range. |
| HsvWindow.IntendedWindow | ColorDetection.py:19-38 | With every bound clamped independently, a legal sample yields a window within the slider ranges with low <= high per channel. |
| HsvWindow.ClampFirstAgreesWhenOneOut | ColorDetection.py:27-38 | The chain and independent clamping give the same window if and only if at most one bound is out of range. |
| SliderPanel.Sliders.constructor | ColorDetection.py:73-78 | The trackbars are created at the initial tuple `Init_color` (line 7), (0, 0, 0)-(179, 255, 255). That is within every slider's range and ordered per channel. |
| SliderPanel.Sliders.SetColor | ColorDetection.py:11-46 | All six slider positions are overwritten with the derived window of the picked sample. Nothing of the old positions survives. For a legal sample, low <= high per channel. |
| ContourSelect.FirstMaxIndex | ColorDetection.py:126-127 | For a non-empty list, returns an index whose area is >= every area, and every earlier area is strictly smaller: the first maximum wins. |
| ContourSelect.FirstMaxUnique | ColorDetection.py:126-127 | The first-maximum property determines the chosen index uniquely. |
| ContourSelect.LargestContour | ColorDetection.py:124-127 | No contour is chosen exactly when the list is empty. Otherwise the chosen contour is the first one of largest area. |

## Findings

| source | as written | input that shows it | evidently intended | confidence | as-written member | corrected member |
|---|---|---|---|---|---|---|
| ColorDetection.py:26-38 | The six range tests form one `if/elif` chain, so at most the first out-of-range bound is clamped. | Sample (5, 10, 5): low saturation -22 and low value -35 are passed to the sliders unclamped. | The comment at line 26 says to anchor any bound that goes beyond its range, so each bound should be clamped on its own. | medium, not executed | HsvWindow.DeriveWindowMayLeaveRange | HsvWindow.IntendedWindow |

`SliderPanel.Sliders.SetColor` keeps the chain as written, because it models
what the program stores. `HsvWindow.ClampFirstAgreesWhenOneOut` says exactly
when the written and the intended behaviour differ.

## Left out

- Camera and window setup, the frame loop, skipping a failed frame read, display, the Esc key and teardown (ColorDetection.py:64-101, 134-145). These are device and UI plumbing with no logic of the program's own.
- The OpenCV primitives `cvtColor`, `inRange`, `findContours`, `contourArea`, `boundingRect`, `rectangle` and `putText` (ColorDetection.py:53, 112-132). Their behaviour lives in the library. Contour areas are therefore inputs to `ContourSelect`, and the bounding box and label are not modelled.
- `pick_color` (ColorDetection.py:50-58) is only modelled through the sample it passes on. Reading the pixel needs the colour conversion, and the debug `print` has no effect on state.
- The trackbar reads at ColorDetection.py:104-109 are plain reads of the six positions, which `SliderPanel.Sliders.Positions` gives.
- SliderPanel.Sliders.SetColor: stores the value it is handed. Any clamping that `setTrackbarPos` itself applies to an out-of-range position belongs to the library and is not modelled.
- HsvWindow.DeriveWindow: works on mathematical integers. The sample really comes as numpy `uint8` scalars, whose arithmetic may wrap modulo 256 instead of going negative. The model therefore does not describe what an actual click stores.
- The duplicated `CAP_PROP_FRAME_WIDTH` setting (ColorDetection.py:86-87) is camera configuration.
- `trackbar_change` (ColorDetection.py:60-62) is a callback that does nothing.
