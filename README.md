# ml4p / mlbook in Dafny

This project models the moving parts of the *ml4p* course book and of its
successor theme *mlbook*:

- **Sphinx extensions.**
  - The `exercise` directive splits its content at the first `---` line into a question and an answer, and writes nested `<div>`s with a Show Answer button.
  - The two `jsfig` directives turn a figure name and a JSON options block into a node. That node renders as HTML from a `string.Template`.
  - `make_context` builds the book's part, chapter and section tree for the HTML templates and finds the page's active part and chapter.
- **The JavaScript plotting library** (`vis/js/lib/mlbook/main.js`).
  - The colour palette: hex/RGB conversion, interpolation, the light and dark tables, and a palette method per colour.
  - The `Plot` class: an affine map from plot space to canvas pixels, and drawing commands for points, lines, arrowheads, axes, ticks and grids.
  - `linspace`, and `PlotTeX` label placement.
- **The 1d-risk figure.**
  - Its own coordinate maps.
  - The risk `R(h) = Σ|h − xᵢ|` and its plotted curve.
  - Dragging the hypothesis marker.
  - Filling in the figure's options.
- **The theme scripts.**
  - ml4p's `ml4p.js`: the theme attribute, the toggles, the fold icons and the light/dark image swapping.
  - mlbook's sidebar script and page script.

Layout of the modules:

- Pure parts are functions and lemmas.
- Code that mutates is modelled with classes. That covers `Sphinx`'s `self.body`, p5's canvas, the `Plot` objects, the options object and the DOM state the scripts write.
- Methods with loops are proved against a specification function of the inputs or the old state (`Steps`, `Marks`, `Painted`, `Rotated`, `Collect`, ...). Methods that only set a few fields or array cells state the new state directly.
- Drawing is modelled as a log of p5 commands (`Drawing.Canvas`).
- A loop `for (x = a; x < b; x += s)` visits exactly the positions `Drawing.Steps(a, b, s, false)`.
- Reals are idealised: no floating-point rounding.

Modules:

- `Wrappers`: `Option` and `Result`.
- `Text`: Python/JS string operations the source uses (split, join, strip, lower, replace, slice, endsWith).
- `Colors`, `Drawing`, `Plotting`, `RiskFigure`: the JavaScript plotting library and the 1d-risk figure.
- `Html`: the translator's body and templates.
- `Exercise`, `JsFigure`, `BookJsFigure`, `Navigation`: the Sphinx extensions.
- `Dom`, `Ml4pTheme`, `MlbookSidebar`, `MlbookPage`: the theme scripts.

## Model

| member | source | states |
|---|---|---|
| Text.Split | extensions/mlbook/html_context.py:15 | `str.split` on one character gives at least one piece, and no piece contains the separator |
| Text.JoinSplit | extensions/mlbook/html_context.py:130-137 | joining the pieces of a split with the separator gives back the string |
| Text.SplitJoin | extensions/mlbook/html_context.py:130-137 | splitting a join of separator-free pieces gives back the pieces |
| Text.SplitNoSep | extensions/mlbook/html_context.py:130 | a string without the separator splits into itself alone |
| Text.SplitPrefix | extensions/mlbook/html_context.py:130 | a separator-free head followed by the separator splits off as the first piece |
| Text.SplitFirst | extensions/mlbook/html_context.py:15 | the first piece is a prefix of the string and is followed by the separator when shorter |
| Text.ReplaceChar | extensions/mlbook/html_context.py:40 | `str.replace` of one character keeps the length and replaces exactly the matching characters |
| Text.LeadingSpaces | ext/ml4p/directives/jsfig.py:61 | the count of leading whitespace is at most the length |
| Text.KeptByStripEnd | ext/ml4p/directives/jsfig.py:61 | the length kept by stripping the end is at most the length |
| Text.StripStartSpec | ext/ml4p/directives/jsfig.py:61 | `lstrip` drops exactly the leading whitespace (Python's `isspace` set, Unicode spaces included) and stops at a non-space |
| Text.StripEndSpec | ext/ml4p/directives/jsfig.py:61 | `rstrip` drops exactly the trailing whitespace (Python's `isspace` set) and stops at a non-space |
| Text.StripSpec | ext/ml4p/directives/jsfig.py:61 | `strip` is a slice with only whitespace (Python's `isspace` set) cut off on either side, and its ends are not whitespace |
| Text.StripEmptyIff | ext/ml4p/directives/jsfig.py:61-62 | the stripped options are empty exactly when the content is all whitespace, Unicode spaces such as U+3000 included |
| Text.Lower | ext/ml4p/directives/jsfig.py:41 | `lower` keeps the length and lowers each ASCII capital, leaving every other character |
| Text.LowerFixed | ext/ml4p/directives/jsfig.py:41 | a string is its own lower-casing exactly when it holds no ASCII capital |
| Text.LowerIdempotent | ext/ml4p/directives/jsfig.py:41 | lowering twice is lowering once |
| Text.Slice | theme/mlbook/static/mlbook-sidebar.js:12 | `slice(i, j)` is never longer than the string and is the substring when the bounds are in range |
| Colors.DigitValue | vis/js/lib/mlbook/main.js:3 | a hex digit's value is below 16 |
| Colors.DigitChar | vis/js/lib/mlbook/main.js:14 | `toString(16)` of a value below 16 is a lower-case hex digit whose value is that number |
| Colors.HexPrefix | vis/js/lib/mlbook/main.js:3-5 | `parseInt(_, 16)` reads the longest prefix of hex digits |
| Colors.NatToHex | vis/js/lib/mlbook/main.js:14 | `toString(16)` always has at least one digit |
| Colors.PadStart2 | vis/js/lib/mlbook/main.js:14 | `padStart(2, "0")` gives at least two characters |
| Colors.ByteToHex | vis/js/lib/mlbook/main.js:14 | a byte becomes exactly its two lower-case hex digits |
| Colors.Rgb2HexDigits | vis/js/lib/mlbook/main.js:9-18 | `rgb2hex` of byte channels is `#` followed by the six hex digits of the channels |
| Colors.Rgb2HexShape | vis/js/lib/mlbook/main.js:9-18 | `rgb2hex` of byte channels is a well-formed lower-case `#rrggbb` colour |
| Colors.TwoDigits | vis/js/lib/mlbook/main.js:3 | two hex digits parse to 16·high + low |
| Colors.Hex2RgbOfRgb2Hex | vis/js/lib/mlbook/main.js:1-18 | `hex2rgb(rgb2hex(c)) == c` for byte channels |
| Colors.ParseHexColor | vis/js/lib/mlbook/main.js:1-7 | `hex2rgb` of a `#rrggbb` colour gives its three digit pairs' values |
| Colors.Rgb2HexOfDigits | vis/js/lib/mlbook/main.js:9-18 | the digit pairs' values are bytes, and `rgb2hex` of them is the colour in lower case |
| Colors.Rgb2HexOfHex2Rgb | vis/js/lib/mlbook/main.js:1-18 | `rgb2hex(hex2rgb(h))` is `h` in lower case for every `#rrggbb` colour |
| Colors.LowerDigit | vis/js/lib/mlbook/main.js:14 | printing a parsed digit gives the digit in lower case |
| Colors.InterpolateColors | vis/js/lib/mlbook/main.js:28-34 | the loop computes `round(c1[i] + f·(c2[i] − c1[i]))` for each of the three channels |
| Colors.InterpolatedEndpoints | vis/js/lib/mlbook/main.js:20-27 | factor 0 gives `color1` and factor 1 gives `color2`, as documented |
| Colors.BlendBetween | vis/js/lib/mlbook/main.js:31 | a channel interpolated with a factor in [0, 1] lies between the two channels |
| Colors.InterpolatedBetween | vis/js/lib/mlbook/main.js:28-34 | every channel of an interpolation with a factor in [0, 1] lies between the endpoints' channels |
| Colors.CommonColorWellFormed | vis/js/lib/mlbook/main.js:36-82 | every colour in the tables is a `#rrggbb` colour |
| Colors.WarmColorsWellFormed | vis/js/lib/mlbook/main.js:36-82 | blue, indigo, purple, pink, red and orange are `#rrggbb` colours |
| Colors.CoolColorsWellFormed | vis/js/lib/mlbook/main.js:36-82 | yellow, green, teal, cyan, white and black are `#rrggbb` colours |
| Colors.ThemeTables | vis/js/lib/mlbook/main.js:36-82 | the light and dark tables differ exactly at `fg` and `bg`, and all their entries are well formed |
| Colors.GetColors | vis/js/lib/mlbook/main.js:89-91 | the light table is chosen exactly when the theme is the string `light`; anything else, including none, is dark |
| Colors.PaletteDefaultFactor | vis/js/lib/mlbook/main.js:94-116 | with the default factor 1 a palette method returns the table colour in lower case |
| Colors.PaletteZeroAndMinusOne | vis/js/lib/mlbook/main.js:99-105 | factor 0 gives the background colour and factor −1 the foreground colour |
| Colors.PaletteColorWellFormed | vis/js/lib/mlbook/main.js:94-132 | for a factor in [−1, 1] every palette method returns a lower-case `#rrggbb` colour |
| Colors.BlendWellFormed | vis/js/lib/mlbook/main.js:112-115 | blending two in-range colours with a factor in [0, 1] gives a lower-case `#rrggbb` colour |
| Drawing.Canvas.constructor | vis/js/lib/mlbook/main.js:150 | a fresh canvas has drawn nothing |
| Drawing.Canvas.Emit | vis/js/lib/mlbook/main.js:234-236 | a p5 call appends exactly its command to the log |
| Drawing.Canvas.EmitAll | vis/js/lib/mlbook/main.js:245-247 | a sequence of p5 calls appends exactly those commands, in order |
| Drawing.RemainingDecreases | vis/js/lib/mlbook/main.js:356-412 | each `x += spacing` with positive spacing brings the loop strictly closer to its bound, so the loops end |
| Drawing.StepsUnfold | vis/js/lib/mlbook/main.js:471-488 | while the loop condition holds, the positions visited are the current one followed by those from the next step |
| Drawing.StepsEnd | vis/js/lib/mlbook/main.js:471-488 | once the loop condition fails, no more positions are visited |
| Drawing.StepsSpec | vis/js/lib/mlbook/main.js:356-488 | the k-th position is `start + k·spacing` and satisfies the loop condition, and the next one fails it |
| Drawing.StepsValues | vis/js/lib/mlbook/main.js:356-488 | the k-th visited position is `start + k·spacing` and satisfies the loop condition |
| Drawing.StepsStop | vis/js/lib/mlbook/main.js:356-488 | the position after the last visited one fails the loop condition |
| Drawing.AdvanceProduct | vis/js/lib/mlbook/main.js:471-488 | adding the spacing `k` times, as the loop's `x += spacing` does, reaches `start + k·spacing` |
| Plotting.ScalesNonzero | vis/js/lib/mlbook/main.js:171-180 | for non-degenerate ranges and a non-degenerate inner box both scale factors are non-zero |
| Plotting.XRoundTrip | vis/js/lib/mlbook/main.js:186-209 | `px(cx(x)) == x` and `cx(px(u)) == u` |
| Plotting.YRoundTrip | vis/js/lib/mlbook/main.js:194-221 | `py(cy(y)) == y` and `cy(py(v)) == v`; the flip of the y axis is undone |
| Plotting.InnerCorners | vis/js/lib/mlbook/main.js:171-200 | the ends of the ranges map to the edges of the padded inner box, with the top of the y range at the top |
| Plotting.Orientation | vis/js/lib/mlbook/main.js:186-200 | `cx` is increasing and `cy` decreasing, so larger y is drawn higher |
| Plotting.CenterScenario | vis/js/lib/mlbook/main.js:139-200 | a 400×300 plot with padding 10 over [−1, 1]² puts the origin at (200, 150) and the range ends at 10/390 and 10/290 |
| Plotting.SegmentsSpec | vis/js/lib/mlbook/main.js:254-258 | `plot(xs, ys)` draws one line per consecutive pair of points, in order |
| Plotting.DotsSpec | vis/js/lib/mlbook/main.js:265-269 | `scatter(xs, ys)` draws one circle per point, at its canvas position |
| Plotting.ArrowheadShape | vis/js/lib/mlbook/main.js:271-305 | the two tails sit `width` either side of the point `length` behind the tip, along the arrow's direction |
| Plotting.MarksSnoc | vis/js/lib/mlbook/main.js:356-488 | one more loop iteration appends exactly that iteration's commands |
| Plotting.LoopStep | vis/js/lib/mlbook/main.js:356-488 | one iteration advances the visited positions and the commands together, and decreases the measure |
| Plotting.LoopEnd | vis/js/lib/mlbook/main.js:356-488 | when the loop condition fails, the loop has visited exactly the listed positions |
| Plotting.TicksDrawn | vis/js/lib/mlbook/main.js:371-383 | the tick loop draws, for each position, the tick style followed by the tick line at that position |
| Plotting.GridDrawn | vis/js/lib/mlbook/main.js:471-488 | the grid loops draw one full-length line per position |
| Plotting.LabelShown | vis/js/lib/mlbook/main.js:388-411 | a label is drawn at v exactly when v is a tick position, labels are on and v is not within 20 pixels of `no_label_near` |
| Plotting.DrawMarks | vis/js/lib/mlbook/main.js:356-488 | the loop draws exactly the marks of the positions `start + k·spacing` that satisfy the loop condition |
| Plotting.Plot.constructor | vis/js/lib/mlbook/main.js:139-166 | the plot keeps its canvas, size and options, and its inner box is the padded box |
| Plotting.Plot.DrawPoint | vis/js/lib/mlbook/main.js:234-236 | draws one circle at the point's canvas position |
| Plotting.Plot.DrawLine | vis/js/lib/mlbook/main.js:245-247 | draws one line between the canvas positions of the ends |
| Plotting.Plot.LinePlot | vis/js/lib/mlbook/main.js:254-258 | the loop draws exactly the segments of consecutive points |
| Plotting.Plot.Scatter | vis/js/lib/mlbook/main.js:265-269 | the loop draws exactly one circle per point |
| Plotting.Plot.DrawArrowhead | vis/js/lib/mlbook/main.js:271-305 | draws the two tail lines of the arrowhead at the tip's canvas position |
| Plotting.Plot.DrawXAxis | vis/js/lib/mlbook/main.js:307-329 | draws the axis line, then the end arrow (angle 0) and the start arrow (angle π) when enabled |
| Plotting.Plot.DrawYAxis | vis/js/lib/mlbook/main.js:331-354 | draws the axis line, then the end arrow (π/2) and the start arrow (−π/2) when enabled |
| Plotting.Plot.DrawXTicks | vis/js/lib/mlbook/main.js:356-412 | the ticks, then the labels, at `interval[0] + k·spacing` for k ≥ 1 strictly below `interval[1]` |
| Plotting.Plot.DrawYTicks | vis/js/lib/mlbook/main.js:414-469 | the same as `draw_xticks`, along the y axis |
| Plotting.Plot.DrawGrid | vis/js/lib/mlbook/main.js:471-488 | vertical lines at positions up to and including `x_interval[1]`, then horizontal lines likewise |
| Plotting.LinspaceSpec | vis/js/lib/mlbook/main.js:491-494 | `num` values from `start` to exactly `stop`, equally spaced; `num == 1` divides by zero |
| Plotting.LinspaceEnds | vis/js/lib/mlbook/main.js:491-494 | for at least two values the first is `start` and the last is exactly `stop` |
| Plotting.LinspaceSpacing | vis/js/lib/mlbook/main.js:491-494 | consecutive values differ by `(stop - start) / (num - 1)` |
| Plotting.LinspaceLast | vis/js/lib/mlbook/main.js:491-494 | `num - 1` steps from `start` land exactly on `stop` |
| Plotting.AnchorSpec | vis/js/lib/mlbook/main.js:527-562 | each of the nine anchors shifts by its fraction of the width and height; any other anchor does not shift |
| Plotting.AnchorFractions | vis/js/lib/mlbook/main.js:535-562 | the branch taken for a known anchor gives its fractions |
| Plotting.AnchorHorizontal | vis/js/lib/mlbook/main.js:535-562 | the horizontal shift is the fraction its name's ending (`right`, `left`, neither) gives |
| Plotting.AnchorVertical | vis/js/lib/mlbook/main.js:535-562 | the vertical shift is the fraction its name's beginning (`top`, `bottom`, neither) gives |
| Plotting.CenteredLabel | vis/js/lib/mlbook/main.js:511-565 | a centred label sits at the point's page position less half its size |
| Plotting.PlotTeX.constructor | vis/js/lib/mlbook/main.js:496-506 | one element per text, none placed yet |
| Plotting.PlotTeX.SetPosition | vis/js/lib/mlbook/main.js:524-566 | places element i at the page position plus the anchor offset and leaves the others; fails when there is no element i |
| RiskFigure.XRoundTrip | vis/js/figures/1d-risk/main.js:31-57 | `px(cx(x)) == x` and `cx(px(u)) == u` |
| RiskFigure.YFlipped | vis/js/figures/1d-risk/main.js:40-48 | `cy` flips the y axis: the top of the range is at the top of the box |
| RiskFigure.PyDoesNotInvertCy | vis/js/figures/1d-risk/main.js:40-66 | as written, `py(cy(y))` is `y` reflected about the range's centre, not `y` |
| RiskFigure.PyCounterexample | vis/js/figures/1d-risk/main.js:59-66 | in the figure's own view, `py(cy(0.5))` is −0.5 |
| RiskFigure.YRoundTrip | vis/js/figures/1d-risk/main.js:40-66 | the flipped inverse undoes `cy` in both directions |
| RiskFigure.DragClamped | vis/js/figures/1d-risk/main.js:290-303 | the dragged hypothesis is `px(mouseX)` clipped to the x range |
| RiskFigure.RiskZeroIff | vis/js/figures/1d-risk/main.js:256-262 | the risk is non-negative, and zero exactly when every data point equals h |
| RiskFigure.RiskSumBound | vis/js/figures/1d-risk/main.js:256-262 | the risk changes by at most n·\|h1 − h2\|, by induction over the data |
| RiskFigure.RiskLipschitz | vis/js/figures/1d-risk/main.js:256-262 | the risk is Lipschitz in h with constant n, the number of data points |
| RiskFigure.RiskAt | vis/js/figures/1d-risk/main.js:256-262 | the loop computes Σ\|h − xᵢ\| |
| RiskFigure.RiskPointsSpec | vis/js/figures/1d-risk/main.js:270-274 | one point per visited h, at `(cx(h), cy(0.004·R(h)) + 5)` |
| RiskFigure.RiskPointsSnoc | vis/js/figures/1d-risk/main.js:270-274 | one more loop iteration draws exactly one more point |
| RiskFigure.DrawRiskCurve | vis/js/figures/1d-risk/main.js:264-274 | the loop draws the risk at `x_min + k·0.1` for every such value below `x_max` |
| RiskFigure.CanvasSize | vis/js/figures/1d-risk/main.js:328-330 | the width is 95% of the window, capped at 500, and the height is 400 |
| RiskFigure.SetupViewSpans | vis/js/figures/1d-risk/main.js:333-347 | in the set-up view the x range spans the box from 5 pixels in, and y ∈ [−1, 1] spans pixels 390 to 0 |
| RiskFigure.RiskPlot.constructor | vis/js/figures/1d-risk/main.js:18-29 | the plot keeps its data, hypothesis and view, and is not being dragged |
| RiskFigure.RiskPlot.Drag | vis/js/figures/1d-risk/main.js:290-303 | while dragging, the hypothesis becomes the clipped `px(mouseX)`; otherwise it is unchanged |
| RiskFigure.RiskPlot.MouseDragged | vis/js/figures/1d-risk/main.js:399-405 | dragging starts when the mouse is within 15 pixels of the marker and then moves the hypothesis |
| RiskFigure.RiskPlot.EndFrame | vis/js/figures/1d-risk/main.js:386-388 | the drag ends when the mouse is released |
| RiskFigure.RiskPlot.Resize | vis/js/figures/1d-risk/main.js:407-411 | the plot box becomes the new canvas less 10 pixels each way |
| RiskFigure.RiskPlot.DrawRisk | vis/js/figures/1d-risk/main.js:254-275 | draws the risk curve over the plot's x range |
| RiskFigure.SeqMin | vis/js/figures/1d-risk/main.js:314-315 | `Math.min(...data)` is an element that no element is below |
| RiskFigure.SeqMax | vis/js/figures/1d-risk/main.js:314-316 | `Math.max(...data)` is an element that no element is above |
| RiskFigure.ConfiguredDefaults | vis/js/figures/1d-risk/main.js:307-311 | without data, the five default points on [0, 90] are used, and the hypothesis starts at 45 unless `w_0` is truthy |
| RiskFigure.ConfiguredBounds | vis/js/figures/1d-risk/main.js:313-317 | given bounds are kept; otherwise the derived bounds enclose every data point |
| RiskFigure.ConfiguredW0 | vis/js/figures/1d-risk/main.js:319 | every option is set afterwards; a falsy `w_0` becomes the midpoint of the bounds and a truthy one is kept |
| RiskFigure.SketchOptions.constructor | vis/js/figures/1d-risk/main.js:306 | the options object holds the given options |
| RiskFigure.SketchOptions.Configure | vis/js/figures/1d-risk/main.js:306-319 | the options are filled in place as the configuration function specifies |
| Html.Translator.constructor | ext/ml4p/directives/jsfig.py:147-153 | a fresh translator body is empty |
| Html.Translator.Append | ext/ml4p/directives/jsfig.py:153 | `self.body.append(s)` adds exactly `s` at the end |
| Html.FirstMissing | ext/ml4p/directives/jsfig.py:94-99 | when a placeholder has no value, the reported key is not among the values (`substitute`'s `KeyError`) |
| Html.CoversAppend | ext/ml4p/directives/jsfig.py:73-99 | a concatenated template has values for all placeholders exactly when both halves do |
| Html.RenderAppend | ext/ml4p/directives/jsfig.py:73-99 | substitution distributes over concatenation of templates |
| Html.RenderAppendStep | ext/ml4p/directives/jsfig.py:73-99 | the inductive step of the distribution: the first piece comes first on both sides |
| Html.RenderSlice | ext/ml4p/directives/jsfig.py:73-99 | the substitution of any run of a template occurs in the whole substitution |
| Html.RenderCons | ext/ml4p/directives/jsfig.py:73-99 | substitution renders the first piece and then the rest |
| Html.RenderTwo | ext/ml4p/directives/jsfig.py:73-99 | substitution renders the first two pieces and then the rest |
| Html.RenderThree | ext/ml4p/directives/jsfig.py:73-99 | a three-piece template renders to its pieces' texts in order |
| Html.RenderFive | ext/ml4p/directives/jsfig.py:73-99 | a five-piece template renders to its pieces' texts in order |
| Html.RenderRun1 | ext/ml4p/directives/jsfig.py:73-99 | each piece's text occurs in the substitution |
| Html.RenderRun3 | ext/ml4p/directives/jsfig.py:73-99 | each three consecutive pieces' text occurs in the substitution |
| Html.RenderRun5 | ext/ml4p/directives/jsfig.py:73-99 | each five consecutive pieces' text occurs in the substitution |
| JsFigure.ValidateHtmlOutputSpec | ext/ml4p/directives/jsfig.py:39-46 | accepted exactly when the lower-cased argument is `static` or `dynamic`, and then returned lower-cased |
| JsFigure.ValidateHtmlOutputExamples | ext/ml4p/directives/jsfig.py:39-46 | `Static` gives `static`, `DYNAMIC` gives `dynamic`, `png` is a `ValueError` |
| JsFigure.LowerStatic | ext/ml4p/directives/jsfig.py:39-46 | `Static` lower-cases to `static` |
| JsFigure.LowerDynamic | ext/ml4p/directives/jsfig.py:39-46 | `DYNAMIC` lower-cases to `dynamic` |
| JsFigure.OptionsJsonSpec | ext/ml4p/directives/jsfig.py:61-62 | the options are `{}` exactly when the content is all whitespace, and otherwise the stripped content |
| JsFigure.UnicodeSpaceOptions | ext/ml4p/directives/jsfig.py:61-62 | content of Unicode white space only (U+3000; U+2028, U+00A0, U+1680) gives `{}` |
| JsFigure.RunSpec | ext/ml4p/directives/jsfig.py:59-70 | one node with the given id and first argument, the options, and `align`/`html_output` defaulting to `center`/`dynamic` |
| JsFigure.DynamicCovers | ext/ml4p/directives/jsfig.py:94-99 | the dynamic template's placeholders all have values |
| JsFigure.DynamicImport | ext/ml4p/directives/jsfig.py:77 | the dynamic HTML imports `setup_dynamic` from the figure's `main.js` |
| JsFigure.DynamicTheme | ext/ml4p/directives/jsfig.py:79-81 | the dynamic HTML reads the theme from the root element |
| JsFigure.DynamicCall | ext/ml4p/directives/jsfig.py:83-87 | the dynamic HTML calls `setup_dynamic` with the div id, `getTheme` and the options |
| JsFigure.DynamicDiv | ext/ml4p/directives/jsfig.py:90 | the dynamic HTML has a div with the node's id |
| JsFigure.DynamicHtmlSpec | ext/ml4p/directives/jsfig.py:73-99 | substitution succeeds and yields the import, the theme lookup, the call and the div |
| JsFigure.StaticCovers | ext/ml4p/directives/jsfig.py:139-144 | the static template's placeholders all have values |
| JsFigure.StaticSource | ext/ml4p/directives/jsfig.py:130 | the static image shows the dark PNG of the figure first |
| JsFigure.StaticOnload | ext/ml4p/directives/jsfig.py:133 | the image calls `initializeGeneratedImage` when it loads |
| JsFigure.StaticDiv | ext/ml4p/directives/jsfig.py:128 | the static HTML has a div with the node's id |
| JsFigure.StaticHtmlSpec | ext/ml4p/directives/jsfig.py:125-144 | substitution succeeds and yields the source, the onload handler and the div |
| JsFigure.Visit | ext/ml4p/directives/jsfig.py:147-153 | appends the dynamic or static HTML, chosen by `html_output` |
| JsFigure.Depart | ext/ml4p/directives/jsfig.py:156-157 | appends nothing |
| BookJsFigure.RunSpec | extensions/mlbook/directives/jsfig.py:23-28 | one node with the given id and figure name, and `{}` for whitespace-only content |
| BookJsFigure.BookCovers | extensions/mlbook/directives/jsfig.py:50-54 | the template's placeholders all have values |
| BookJsFigure.BookImport | extensions/mlbook/directives/jsfig.py:34 | the HTML imports `setup_dynamic` from the figure's `main.js` |
| BookJsFigure.BookTheme | extensions/mlbook/directives/jsfig.py:36-38 | the HTML reads the theme from the body element |
| BookJsFigure.BookCall | extensions/mlbook/directives/jsfig.py:40-44 | the HTML calls `setup_dynamic` with the div id, `getTheme` and the options |
| BookJsFigure.BookDiv | extensions/mlbook/directives/jsfig.py:47 | the HTML has a div with the node's id |
| BookJsFigure.BookHtmlSpec | extensions/mlbook/directives/jsfig.py:31-54 | substitution succeeds and yields the import, the theme lookup, the call and the div |
| BookJsFigure.Visit | extensions/mlbook/directives/jsfig.py:31-56 | appends the figure's HTML |
| BookJsFigure.Depart | extensions/mlbook/directives/jsfig.py:59-60 | appends nothing |
| Exercise.IndexOf | ext/ml4p/directives/exercise.py:29 | `list.index` finds the first occurrence, and is a `ValueError` exactly when there is none |
| Exercise.RunSpec | ext/ml4p/directives/exercise.py:28-47 | fails exactly when no line is `---`; otherwise one exercise whose question precedes the first `---`, whose answer follows it, and whose two parts share an id |
| Exercise.RunExample | ext/ml4p/directives/exercise.py:29-31 | only the first `---` splits; later ones stay in the answer |
| Exercise.VisitExercise | ext/ml4p/directives/exercise.py:50-55 | appends the exercise's opening chunks |
| Exercise.DepartExercise | ext/ml4p/directives/exercise.py:64-66 | appends two closing `</div>`s |
| Exercise.VisitQuestion | ext/ml4p/directives/exercise.py:57-58 | appends the question's opening div |
| Exercise.DepartQuestion | ext/ml4p/directives/exercise.py:68-73 | appends the button container, the Show Answer button and two closing `</div>`s |
| Exercise.VisitAnswer | ext/ml4p/directives/exercise.py:60-61 | appends the collapsible answer div with the node's id |
| Exercise.DepartAnswer | ext/ml4p/directives/exercise.py:75-76 | appends one closing `</div>` |
| Exercise.DepthAppend | ext/ml4p/directives/exercise.py:50-76 | the div depth of two chunk lists is the sum of their depths |
| Exercise.NeverUnderAppend | ext/ml4p/directives/exercise.py:50-76 | closing never outruns opening across a concatenation |
| Exercise.BalancedAppend | ext/ml4p/directives/exercise.py:50-76 | balanced output followed by balanced output is balanced |
| Exercise.BalancedWrap | ext/ml4p/directives/exercise.py:50-76 | balanced content between a balanced visit/depart pair is balanced |
| Exercise.DeltaOfChunks | ext/ml4p/directives/exercise.py:50-76 | each chunk opens one div, closes one, or neither, as written |
| Exercise.ExerciseDepths | ext/ml4p/directives/exercise.py:50-66 | after each of the exercise's own chunks the number of open divs is 1, 2, 2, 1, 2, 1 and finally 0 |
| Exercise.ExercisePairBalanced | ext/ml4p/directives/exercise.py:50-66 | the exercise's visit and depart together open and close the same number of divs, never closing more than opened |
| Exercise.QuestionDepths | ext/ml4p/directives/exercise.py:57-73 | after each of the question's chunks the number of open divs is 1, 2, 2, 1 and finally 0 |
| Exercise.QuestionPairBalanced | ext/ml4p/directives/exercise.py:57-73 | the question's visit and depart are balanced |
| Exercise.AnswerPairBalanced | ext/ml4p/directives/exercise.py:60-76 | the answer's visit and depart are balanced |
| Exercise.PairsBalanced | ext/ml4p/directives/exercise.py:50-76 | all three visit/depart pairs are balanced |
| Exercise.ExerciseBalanced | ext/ml4p/directives/exercise.py:50-76 | a whole exercise with balanced question and answer bodies is balanced HTML |
| Exercise.ButtonTargetsAnswer | ext/ml4p/directives/exercise.py:61-71 | the Show Answer button targets `#id` and the answer div carries that id |
| Navigation.ChapterOneSegment | extensions/mlbook/html_context.py:25-26 | for a page name without `/` a chapter is active exactly on its own index page |
| Navigation.ChapterActiveInPart | extensions/mlbook/html_context.py:14-26 | a page active in a chapter is active in any part that shares the chapter's first segment |
| Navigation.DocId | extensions/mlbook/html_context.py:40 | the id is the document name with every `/` replaced by `-`, so it has no `/` |
| Navigation.CollectSpec | extensions/mlbook/html_context.py:43-44 | the child loop succeeds exactly when every child does, and then builds them in order; otherwise it fails with the first child's error |
| Navigation.CollectErrExtends | extensions/mlbook/html_context.py:43-44 | once the loop has failed, later children do not change the result |
| Navigation.CollectStep | extensions/mlbook/html_context.py:43-44 | one iteration appends the new child or stops with its error |
| Navigation.ChapterOfSpec | extensions/mlbook/html_context.py:49-64 | a chapter is built exactly when it and all its sections have titles; then it has the document, the id, the part and one section per include; otherwise the error names a missing title |
| Navigation.PartOfSpec | extensions/mlbook/html_context.py:36-58 | a part is built exactly when its supertitle, its title and all its chapters' titles exist; the error names the missing key |
| Navigation.MakeChapter | extensions/mlbook/html_context.py:49-58 | the loop builds exactly the chapter the specification gives, or the same error |
| Navigation.MakePart | extensions/mlbook/html_context.py:36-46 | the loop builds exactly the part the specification gives, or the same error |
| Navigation.ContextParts | extensions/mlbook/html_context.py:126-128 | a missing root toctree fails first; on success `parts` holds one part per root entry, in order |
| Navigation.SplitActivePart | extensions/mlbook/html_context.py:134 | `"<seg>/index"` splits into the segment and `index` |
| Navigation.SplitActiveChapter | extensions/mlbook/html_context.py:137-139 | `"<seg0>/<seg1>/index"` splits into its three segments |
| Navigation.ChapterIndexPath | extensions/mlbook/html_context.py:137-139 | `"<seg0>/<seg1>" + "/index"` is the two segments and `index` joined by slashes |
| Navigation.ContextActive | extensions/mlbook/html_context.py:130-140 | the active part is set exactly for page names of two or more segments and the chapter for three or more; both are active for the page, and the chapter belongs to the active part |
| Navigation.BuildEnvironment.constructor | extensions/mlbook/html_context.py:123 | the environment holds the given data and cache flag |
| Navigation.TemplateContext.constructor | extensions/mlbook/html_context.py:122 | a fresh context has none of the keys |
| Navigation.MakeContext | extensions/mlbook/html_context.py:122-140 | the cache exists afterwards, and the context and error are those the specification gives, keys written before a failure included |
| Dom.SetAll | ext/ml4p/html_theme/static/js/ml4p.js:202-207 | the `forEach` loop sets the property on every element |
| Dom.IconSrcInjective | ext/ml4p/html_theme/static/js/ml4p.js:112-118 | the white and black chevrons are different sources, so the icon shows which theme drew it |
| Dom.Angle | ext/ml4p/html_theme/static/js/ml4p.js:124 | the angle is 90 or 0 |
| Dom.RotateSpec | ext/ml4p/html_theme/static/js/ml4p.js:124-127 | the icon is rotated 90° exactly when `aria-expanded` is `true`, and otherwise 0° |
| Ml4pTheme.GetTheme | ext/ml4p/html_theme/static/js/ml4p.js:22-24 | never empty; `light` exactly when the attribute is missing, empty or `light`; otherwise the attribute |
| Ml4pTheme.LongerWordMismatch | ext/ml4p/html_theme/static/js/ml4p.js:166 | a `-t.png` name does not end in `-w.png` when `t` is longer and has no `-` |
| Ml4pTheme.ShorterWordMismatch | ext/ml4p/html_theme/static/js/ml4p.js:166 | a `-t.png` name does not end in `-w.png` when `t` is shorter and `w` has no `-` |
| Ml4pTheme.SameLengthWordMismatch | ext/ml4p/html_theme/static/js/ml4p.js:166 | a `-t.png` name does not end in a different `-w.png` of the same length |
| Ml4pTheme.SuffixDecides | ext/ml4p/html_theme/static/js/ml4p.js:166 | for dash-free words, a `-t.png` name ends in `-w.png` exactly when `t == w` |
| Ml4pTheme.NewSrcUnthemed | ext/ml4p/html_theme/static/js/ml4p.js:166 | a source not ending in `-light.png` or `-dark.png` is left alone |
| Ml4pTheme.NewSrcThemed | ext/ml4p/html_theme/static/js/ml4p.js:166 | a themed source keeps its stem and gets the theme's suffix |
| Ml4pTheme.StemOfNewSrc | ext/ml4p/html_theme/static/js/ml4p.js:166 | switching to light or dark keeps the source themed, with the same stem |
| Ml4pTheme.StemOfLight | ext/ml4p/html_theme/static/js/ml4p.js:166 | `<stem>-light.png` is themed and its stem is `<stem>` |
| Ml4pTheme.StemOfDark | ext/ml4p/html_theme/static/js/ml4p.js:166 | `<stem>-dark.png` is themed, does not end in `-light.png`, and its stem is `<stem>` |
| Ml4pTheme.NewSrcSwitch | ext/ml4p/html_theme/static/js/ml4p.js:163-172 | after a switch to light or dark, the next switch acts as if applied to the original |
| Ml4pTheme.LightDarkLight | ext/ml4p/html_theme/static/js/ml4p.js:163-172 | switching a light image to dark and back restores its source |
| Ml4pTheme.NewSrcIdempotent | ext/ml4p/html_theme/static/js/ml4p.js:163-171 | a second update with the same theme changes nothing, so the `onload` loop stops |
| Ml4pTheme.OtherThemeUnthemed | ext/ml4p/html_theme/static/js/ml4p.js:166 | a theme other than light or dark leaves a source that no later update will match |
| Ml4pTheme.ThemedIff | ext/ml4p/html_theme/static/js/ml4p.js:166 | `<stem>-<t>.png` carries a theme suffix exactly when `t` is `light` or `dark`, for `t` without a hyphen |
| Ml4pTheme.Page.constructor | ext/ml4p/html_theme/static/js/ml4p.js:3-10 | the page holds the given DOM state |
| Ml4pTheme.Page.SetTheme | ext/ml4p/html_theme/static/js/ml4p.js:27-31 | sets the root attribute and the stored theme; a non-empty theme is then the current one |
| Ml4pTheme.Page.UpdateThemeModeToggles | ext/ml4p/html_theme/static/js/ml4p.js:62-69 | every toggle is on exactly when the theme is dark |
| Ml4pTheme.Page.ToggleChanged | ext/ml4p/html_theme/static/js/ml4p.js:71-79 | the toggle's position picks dark or light, which is set, stored and shown by every toggle |
| Ml4pTheme.Page.UpdateFoldIconColors | ext/ml4p/html_theme/static/js/ml4p.js:108-120 | every fold icon gets the chevron of the current theme |
| Ml4pTheme.Page.UpdateFoldIconRotation | ext/ml4p/html_theme/static/js/ml4p.js:122-133 | the button's icon is rotated by the `aria-expanded` value read at the call, with or without animation; no other icon changes |
| Ml4pTheme.Page.SidebarButtonClicked | ext/ml4p/html_theme/static/js/ml4p.js:122-141 | a click rotates that button's icon by its `aria-expanded` at the click, with animation; no other icon changes |
| Ml4pTheme.Page.SetupFoldIcons | ext/ml4p/html_theme/static/js/ml4p.js:150-158 | every icon is coloured for the theme and rotated by its button's load-time `aria-expanded`, without animation |
| Ml4pTheme.Page.UpdateGeneratedImageColor | ext/ml4p/html_theme/static/js/ml4p.js:163-172 | the image gets the themed source and is reassigned exactly when that differs; no other image changes |
| Ml4pTheme.Page.InitializeGeneratedImage | ext/ml4p/html_theme/static/js/ml4p.js:183-190 | the image gets the current theme's source, after which a further update changes nothing |
| Ml4pTheme.Page.ThemeChanged | ext/ml4p/html_theme/static/js/ml4p.js:33-50 | on a theme change, toggles, fold icons and images all follow the new theme |
| Ml4pTheme.Page.ChangeAllHeaderLinkCharacters | ext/ml4p/html_theme/static/js/ml4p.js:202-207 | every header link reads `#` |
| Ml4pTheme.Page.Load | ext/ml4p/html_theme/static/js/ml4p.js:3-10 | after loading, the header links read `#`, the icons and toggles show the theme, and the icons are rotated by their buttons |
| Ml4pTheme.ToggleScenario | ext/ml4p/html_theme/static/js/ml4p.js:71-86 | a toggle change followed by the theme-change event leaves the page in sync with the stored choice |
| MlbookSidebar.FoldIconIdSpec | theme/mlbook/static/mlbook-sidebar.js:11-13 | the icon id is the button id with `sb-btn` replaced by `sb-fold-icon` |
| MlbookSidebar.FoldIconIdInjective | theme/mlbook/static/mlbook-sidebar.js:11-13 | distinct `sb-btn` buttons have distinct fold icons |
| MlbookSidebar.PreferredThemeSpec | theme/mlbook/static/mlbook-sidebar.js:32-41 | a non-empty stored theme wins; otherwise dark exactly when the system prefers dark |
| MlbookSidebar.PreferenceRoundTrip | theme/mlbook/static/mlbook-sidebar.js:69-94 | what a toggle stores is read back on the next load as the same position |
| MlbookSidebar.Painted | theme/mlbook/static/mlbook-sidebar.js:52-66 | the listed icons get the new source and all other icons are unchanged |
| MlbookSidebar.PaintedStep | theme/mlbook/static/mlbook-sidebar.js:52-66 | painting one more button's icon extends the painted set by that icon |
| MlbookSidebar.Rotated | theme/mlbook/static/mlbook-sidebar.js:22-29 | the listed icons are turned to 90° and all other icons are unchanged |
| MlbookSidebar.RotatedStep | theme/mlbook/static/mlbook-sidebar.js:22-29 | turning one more icon extends the turned set; turning an icon twice is turning it once |
| MlbookSidebar.ExpandedStep | theme/mlbook/static/mlbook-sidebar.js:22-29 | one more button adds its icon to the expanded icons exactly when it is expanded |
| MlbookSidebar.Sidebar.constructor | theme/mlbook/static/mlbook-sidebar.js:2-4 | the sidebar holds the given DOM state |
| MlbookSidebar.Sidebar.SetAllDarkModeToggles | theme/mlbook/static/mlbook-sidebar.js:46-50 | every toggle is set to the setting |
| MlbookSidebar.Sidebar.SetFoldIconColor | theme/mlbook/static/mlbook-sidebar.js:52-66 | the loop paints exactly the buttons' icons with the theme's chevron |
| MlbookSidebar.Sidebar.ButtonClicked | theme/mlbook/static/mlbook-sidebar.js:8-20 | the button's icon is rotated by its `aria-expanded` at the click, with animation; no other icon changes |
| MlbookSidebar.Sidebar.RotateExpanded | theme/mlbook/static/mlbook-sidebar.js:22-29 | the icons become `Rotated` over the expanded buttons' icons: those turned to 90°, all others left as they were |
| MlbookSidebar.Sidebar.ApplyTheme | theme/mlbook/static/mlbook-sidebar.js:69-77 | body attribute, toggles and icons all show the theme |
| MlbookSidebar.Sidebar.LoadTheme | theme/mlbook/static/mlbook-sidebar.js:69-77 | the preferred theme is applied, dark exactly when it is `dark` |
| MlbookSidebar.Sidebar.ToggleChanged | theme/mlbook/static/mlbook-sidebar.js:80-94 | everything follows the toggle, and the choice is stored |
| MlbookSidebar.Sidebar.Load | theme/mlbook/static/mlbook-sidebar.js:2-95 | the icons become the expanded ones turned and then every button's icon painted for the preferred theme, nothing else changed; body and toggles show that theme |
| MlbookPage.NextLabel | theme/mlbook/static/mlbook.js:20-26 | a click gives Hide Answer exactly when the label was Show Answer, and Show Answer otherwise |
| MlbookPage.Alternates | theme/mlbook/static/mlbook.js:18-27 | starting from Show Answer, the label alternates with every click |
| MlbookPage.TwoClicks | theme/mlbook/static/mlbook.js:20-26 | two clicks restore either label; any other text becomes Show Answer |
| MlbookPage.Page.constructor | theme/mlbook/static/mlbook.js:2 | the page holds the given DOM state |
| MlbookPage.Page.Load | theme/mlbook/static/mlbook.js:2-15 | the body spies on `#tocbar` and every header link reads `#` |
| MlbookPage.Page.AnswerButtonClicked | theme/mlbook/static/mlbook.js:19-26 | only the clicked button's label changes, to its next label |

## Left out

- Floating point: reals are exact, so rounding, `NaN` and infinities are not modelled. The exceptions are the ones `configure_sketch` can meet, which `RiskFigure.JsNum` names.
- Plotting.Plot.DrawArrowhead: only the four angles the axes pass are modelled (0, π, π/2, −π/2). `Math.cos` and `Math.sin` are given exactly at those angles, and other angles are left out.
- p5 rendering is not modelled. The log records lines, circles, points, text alignment, labels and the calls of the tick and label stylers. Direct style calls (`stroke`, `strokeWeight`, `fill`, `noStroke`) are dropped.
- RiskFigure.RiskPlot.DrawRisk: drops `strokeWeight(3)` and `stroke(this.palette.danger())`, and assumes the figure's palette defines `danger()`. The palette of vis/js/lib/mlbook/main.js has no `danger()`, so with it the source throws a `TypeError` before drawing any point; the figure imports its palette through `../lib/mlbook/main.js`, which is not part of this model.
- `parseInt`'s handling of signs, whitespace and `0x` prefixes is left out. `Colors.Hex2Rgb` reads the hex-digit prefix of each two-character slice and gives `None` where JavaScript gives `NaN`.
- Plotting.Plot.DrawXTicks: requires a positive spacing. With zero or negative spacing the source loops forever.
- Plotting.Plot.DrawYTicks: requires a positive spacing, for the same reason.
- Plotting.Plot.DrawGrid: requires positive spacings, for the same reason.
- Plotting.DrawMarks: requires a positive spacing, for the same reason.
- Plotting.XRoundTrip: requires non-degenerate ranges and a non-zero inner size. Otherwise the source divides by zero.
- Plotting.YRoundTrip: requires non-degenerate ranges and a non-zero inner size, for the same reason.
- Plotting.Plot.DrawArrowhead: requires an invertible frame. The source's `_draw_arrowhead` goes through `px`/`py`, which divide by zero otherwise.
- RiskFigure.XRoundTrip: requires a non-zero plot width, because of the division in `px`.
- RiskFigure.RiskPlot.Drag: requires a non-zero plot width, for the same reason.
- JsFigure.RunSpec: requires one or two arguments. Docutils enforces this before `run` is called.
- BookJsFigure.RunSpec: requires exactly one argument, for the same reason.
- Ml4pTheme.NewSrcIdempotent: requires a theme without `-`. A theme such as `x-light` would be rewritten again on the next `onload`, and the source's infinite-loop guard then fails. The stored theme is only ever `light` or `dark`.
- Ml4pTheme.Page.ThemeChanged: requires a theme without `-`, for the reason above.
- MlbookSidebar.Sidebar.Load: requires every `sb-btn` button to have its fold icon. Without one the source throws a `TypeError` in the click handler or the loop.
- Ml4pTheme.Page.SetupFoldIcons: requires one fold icon per sidebar button (`Valid`). A button without an `sb-fold-icon` child makes `updateFoldIconRotation` throw a `TypeError`.
- Ml4pTheme.Page.Load: requires one fold icon per sidebar button, for the same reason.
- Ml4pTheme.Page.SidebarButtonClicked: requires the button to have its fold icon, for the same reason.
- Text.Lower: lowers ASCII capitals only. Python's `str.lower` also lowers other scripts and can change the length (`"İ".lower()` has two characters). `JsFigure.ValidateHtmlOutput` compares the result with `static` and `dynamic`; the only non-ASCII character Python lowers to a single ASCII letter is the Kelvin sign, which lowers to `k`, and neither word holds a `k`; `İ` lowers to `i` followed by a combining dot, which matches neither word either. So the decision is the same.
- The `MutationObserver` and the `ml4p-theme-changed` `CustomEvent` are collapsed into the method that runs the handlers, `Ml4pTheme.Page.ThemeChanged`.
- `localStorage` and `matchMedia` are fields of the page objects. `uuid.uuid4()` is the `id` parameter of the directives.
- `nested_parse` of the exercise's question and answer is not modelled. The nodes keep the lines.
- Generating the static screenshots (`_generate_static_figures`, `genfig`, file copies) is not modelled. The base name is a parameter.
- The images' width and height styling in `initializeGeneratedImage` is not modelled.
- The `$` replacement patterns of JavaScript's `String.replace` are not modelled. The theme is inserted as plain text.
- The back-references `chapter.part` and `section.chapter` are object cycles in Python. They are kept as header values: the referenced object's fields other than its children.
- `make_navigation` (a docstring only) and the `cache` contents are not modelled.
- The 1d-risk figure's other drawing routines are not modelled: data points, errors, hypothesis and point labels. Its `p5` instance creation is not modelled either.
- The gesture and plot-example figures, the `genfig` tooling, the Sphinx `conf.py` files and the templates are outside this model.

## Findings

| source | as written | input that shows it | evidently intended | confidence | as-written member | corrected member |
|---|---|---|---|---|---|---|
| vis/js/figures/1d-risk/main.js:59-66 | `py(y)` maps pixel rows to plot values without the flip that `cy` applies, so `py(cy(y))` is `y_min + y_max − y` | view `top_left = [5, 0]`, `size = [490, 390]`, `x_range = [0, 90]`, `y_range = [-1, 1]`; `py(cy(0.5)) = -0.5` | `py` inverts `cy`: `y_min + (1 − (v − top)/height)·(y_max − y_min)` | not executed; the figure never calls `py`, so nothing visible is affected | RiskFigure.PyDoesNotInvertCy, RiskFigure.PyCounterexample | RiskFigure.YRoundTrip |
