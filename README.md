# Image merger: layout engine and page state

A model of the image merger's browser script. The user uploads images and picks
a layout: side by side (`horizontal`), stacked (`vertical`) or a two-column grid
(`grid2`). They also pick a gap in pixels and a background colour. Merging draws
every image, at its natural size, onto one canvas. The user can then download
the resulting PNG.

The project has three modules:

- `Layout` (layout.dfy) is the planner as pure functions.
  - `PlanOf` gives the canvas size and the sequence of `drawImage` calls for an
    image list, a layout and a clamped gap.
  - The lemmas say where each image lands: in input order, at the closed-form
    offsets, inside the canvas, and never on top of another image.
- `Planner` (planner.dfy) is `mergeImages` as the source writes it.
  - The grid's `colW`/`rowH` arrays are filled in place by one loop, which the
    source runs twice.
  - The placement loops keep a running `x`/`y` and append one `Draw(index, x, y)`
    record per `drawImage` call.
  - Each method is proved to compute the `Layout` closed forms.
- `App` (session.dfy) is the page's module-level state as a class `Session`.
  - Its fields are the image list, the last merged result and the download flag.
  - Its methods are the upload, merge and clear handlers.
  - `Valid()` says that download is enabled exactly when a result is held, and
    that a held result is the merge of the current image list.

Three points where the script's behaviour may be unexpected; the model follows the script:

- The "at least two images" check is in the merge button's handler
  (`App.Session.Merge`). It is not in the planner. The planner only needs a
  non-empty list.
- The gap is clamped once, inside `mergeImages`.
- One upload batch succeeds or fails as a whole: `Promise.all`, modelled by
  `App.AllLoaded`. It does not fail per file.

Parameters stand in for browser input:

- Each uploaded file is a decoded `Size` (natural width and height), or `None`
  when it fails to decode.
- The gap field arrives already parsed to an integer.
- The layout selector is the three-valued `Mode`.
- The background colour is a string that is carried along uninterpreted.

## Model

| member | source | states |
|---|---|---|
| `Layout.Clamp` | script.js:173 | The result is never below `lo`. It is at most `hi` when `lo <= hi`. It equals `n` when `n` is already in range, `lo` below the range and `hi` above it. So the gap `clamp(n, 0, 100)` is never negative. |
| `Layout.Max` | script.js:95 | `Math.max(...xs)` of a non-empty list is an element of the list and is at least every element. |
| `Layout.Rows` | script.js:101 | `rows` is `ceil(n / 2)`: `n <= 2 * rows <= n + 1`. |
| `Layout.ColMaxIsMax` | script.js:104-112 | After the sizing loop, `colW[c]` is the maximum of 0 and the widths of the images with `i % 2 == c`. It is at least each such width, and it is 0 or one of them. |
| `Layout.RowMaxIsMax` | script.js:104-112 | After the sizing loop, `rowH[r]` is the maximum of 0 and the heights of the images with `floor(i / 2) == r`. |
| `Layout.OffsetStep` | script.js:128-133 | The closed form `sum(xs[0..i-1]) + gap * i` advances exactly as the loop accumulator does: `x += w_i + gap`. |
| `Layout.OffsetBefore` | script.js:127-140 | In a strip, item `i` plus the gap after it ends no later than any later item starts. |
| `Layout.StripFits` | script.js:94-98 | Every item of a strip ends within `sum(xs) + gap * (n - 1)`. |
| `Layout.HorizontalPlacement` | script.js:127-133 | Horizontal: there are n draws, in input order, with image i at `x_i = sum(w_0..w_{i-1}) + gap * i` and `y = 0`. So `x_0 = 0`, and each next `x` is the previous `x` plus `w_i + gap`. With gap 0, neighbours abut exactly. |
| `Layout.HorizontalFits` | script.js:93-133 | Horizontal: `outW == sum(w) + gap * (n - 1)` and `outH == max(h)`. Each image, with the gap after it, ends before any later image begins. Every image lies inside the canvas: `x_i + w_i <= outW` and `h_i <= outH`. |
| `Layout.HorizontalIncreasing` | script.js:127-133 | Horizontal: `x` strictly increases along the input order when the earlier image has a positive width or the gap is positive. |
| `Layout.VerticalPlacement` | script.js:134-140 | Vertical, the mirror image: n draws in input order, with image i at `x = 0` and `y_i = sum(h_0..h_{i-1}) + gap * i`. Each next `y` is the previous `y` plus `h_i + gap`, and neighbours abut when the gap is 0. |
| `Layout.VerticalFits` | script.js:96-140 | Vertical: `outW == max(w)` and `outH == sum(h) + gap * (n - 1)`. Images are apart vertically, and every image lies inside the canvas. |
| `Layout.GridLayout` | script.js:99-166 | Grid: `outW == colW[0] + colW[1] + gap` and `outH == sum(rowH) + gap * (rows - 1)`, with `rows == ceil(n / 2)`. Image i is drawn once, in order, at the top-left corner of cell `(i % 2, floor(i / 2))`: `x` is 0 or `colW[0] + gap`, and `y == sum(rowH[0..r-1]) + gap * r`. It is not centred. The image fits its cell, and the cell fits the canvas: `x + colW[i % 2] <= outW` and `y + rowH[floor(i / 2)] <= outH`. |
| `Layout.GridCellsDisjoint` | script.js:155-166 | Two distinct grid images lie in different columns or in different rows, so they do not overlap. |
| `Layout.PlanInside` | script.js:91-167 | For every layout there is one draw per image, in input order, and each image lies inside the canvas. |
| `Layout.PlanDisjoint` | script.js:91-167 | For every layout, no two drawn images overlap. |
| `Layout.GridExampleExtents` | script.js:104-112 | For widths 10, 20, 30, 40 and heights 5, 15, 25, 35: `colW == [30, 40]` and `rowH == [15, 35]`. |
| `Layout.GridExample` | script.js:99-166 | The same images with gap 2 give a 72 x 52 canvas, with draws at (0,0), (32,0), (0,17) and (32,17). |
| `Planner.CellExtents` | script.js:104-112 | The in-place loop over fresh zero-filled arrays `colW` (length 2) and `rowH` (length `rows`) ends with `colW[..] == [ColMax(s,0), ColMax(s,1)]` and `rowH[r] == RowMax(s, r)` for every row. The sizing run and the drawing run of this loop therefore yield identical arrays. |
| `Planner.SizeGrid` | script.js:99-115 | The grid's sizing block gives `outW == colW[0] + colW[1] + gap` and `outH == sum(rowH) + gap * (rows - 1)`, as the closed forms state. |
| `Planner.SizeCanvas` | script.js:91-116 | The canvas size computed by `reduce`/`Math.max` and the grid arrays equals the closed-form `CanvasWidth`/`CanvasHeight` of the layout. |
| `Planner.DrawHorizontal` | script.js:127-133 | The loop with its running `x` records exactly the closed-form horizontal placements, one per image, in order. |
| `Planner.DrawVertical` | script.js:134-140 | The loop with its running `y` records exactly the closed-form vertical placements. |
| `Planner.DrawGrid` | script.js:141-166 | The nested row/column loops, with the `break` at `i >= n` for an odd final row, record exactly the grid placements: every index 0..n-1 once, in increasing order. |
| `Planner.MergeImages` | script.js:83-167 | One call clamps the gap to [0, 100], sizes the canvas and draws. Its result is `PlanOf(sizes, mode, clamp(gapInput, 0, 100))`. |
| `App.AllLoaded` | script.js:20 | `Promise.all` over a batch yields a list exactly when every file decoded. That list has the batch's length and holds the decoded sizes in submission order. |
| `App.Session.constructor` | script.js:12-13 | The page starts with no images, no merged result and download disabled. |
| `App.Session.Upload` | script.js:15-26 | An empty selection, or a batch with a failed decode, changes nothing. Otherwise the new batch is appended after the existing images, in order. The merged result is then dropped and download disabled. |
| `App.Session.Merge` | script.js:28-34 | Fewer than 2 images gives the alert outcome and changes nothing. Otherwise the images are unchanged, and the held result is the merge of the current list (the epilogue at script.js:169-170). Download is then enabled. |
| `App.Session.Clear` | script.js:45-54 | The image list is emptied, the merged result is dropped and download is disabled. |
| `App.ClearThenMerge` | script.js:28-54 | Two uploaded images merge. After a clear, merging is refused. After uploading a single image, merging is refused again. |

## Left out

- DOM lookups, event-listener wiring, `alert` and thumbnail rendering (script.js:1-10, 56-67) are user-interface glue. The alert is the `TooFewImages` outcome.
- File decoding through `FileReader`/`Image` (script.js:69-81) is asynchronous browser I/O. A batch is given as decoded sizes, or `None` for a failed file.
- Asynchrony is not modelled. Each handler runs atomically. The model does not capture a merge or clear that runs while an upload's decoding is still pending.
- Canvas pixel work is not modelled: `fillRect`, `drawImage` pixels, `clearRect`, setting `canvas.width`/`height` and PNG encoding by `toDataURL` (script.js:48-50, 119-124, 169). Only the draw-call records are kept, and the data URL is abstracted to the `Composite` it stands for; the images' pixels are not carried.
- Parsing the gap text with `parseInt` (script.js:85) is not modelled. Non-numeric text gives `NaN`, which `clamp` does not repair; that is number semantics, not integer behaviour.
- Reading the background colour string (script.js:86) is not modelled. The colour is carried uninterpreted.
- An unrecognised layout string is not modelled. It would leave a 0 x 0 canvas and draw nothing (script.js:91, 116). The layout is a three-valued datatype.
- The download handler and link creation (script.js:36-43) and drag-and-drop (script.js:176-206) are browser plumbing. What download needs, a held result, is the `lastMerged` field.
- JavaScript numbers are doubles. Widths, heights and offsets here are unbounded naturals, which agree with doubles for every size below 2^53. Browser limits on canvas size are not modelled.
- `Planner.MergeImages` requires a non-empty list. `Math.max` over no images is `-Infinity`, and the only caller passes at least two images.
- The initial state of the download button comes from the page's HTML, which is not part of this model. The constructor assumes it starts disabled.
