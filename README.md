# NLVideo PNG-sequence pipeline, modelled in Dafny

This project models the logic of `src/Utils/PngUtils.ts` in NLVideo, a desktop
application that turns a numbered sequence of still images, an optional top
and bottom overlay and an audio track into a WebM video. The TypeScript file is a
thin layer over browser media APIs. The parts with logic of their own are modelled here:

- **Ingestion** (`Upload`, `NumericOrder`, `FilenameKey`): `handlePNGSequenceUpload`
  orders the selected files by the integer value of the first run of digits in
  each name (0 when there is none). `Array.prototype.sort` is stable, so files with
  equal keys keep their selection order. The result is renamed `Capture1..CaptureN`.
  The three single-file handlers return `null` without a selection and otherwise
  build a record from the first file only.
- **Preloading** (`Compositor.PreloadImages`): every sequence image is loaded, and the loaded
  images come back in input order. An overlay is loaded only when its source is truthy, meaning present and not `""`.
  Any failed load rejects the whole operation.
- **Compositing** (`Compositor.PreloadFrames`, a method over `Canvas` objects): both
  canvases take the first image's size. Each image then gives one frame, drawn as a
  clear, the bottom overlay, the image and the top overlay.
- **Playback and capture** (`Playback`): `renderNextFrame` is `FrameLoop.Tick`. It paints
  `frames[i++]` and arms the next call, or stops the recorder once every frame has been
  painted. The `MediaRecorder` and its `chunks` buffer form `CaptureSession`, which keeps
  only chunks with data, in arrival order.

Host calls are parameters or abstract values. `URL.createObjectURL` is a function
`File -> string`. Image decoding (`loadImage`) is a function `string -> Settled<Image>`,
where `Settled` says whether a promise resolved or rejected. Pixels are replaced
by the list of draw calls that produced them. Timer ticks and recorder events are
method calls that the environment makes.

## Model

| member | source | states |
|---|---|---|
| FilenameKey.DigitPrefix | src/Utils/PngUtils.ts:10 | the greedy `\d+` part of a match: a prefix of the input, all digits, followed by a non-digit or the end |
| FilenameKey.FirstDigitIndex | src/Utils/PngUtils.ts:10 | where the regex search starts its match: no digit before the index, a digit at it unless it is the end |
| FilenameKey.FirstDigitRun | src/Utils/PngUtils.ts:10 | `name.match(/\d+/)` is null exactly when the name has no digit; otherwise it is a first maximal run of digits |
| FilenameKey.FirstRunUnique | src/Utils/PngUtils.ts:10 | the first maximal run of digits of a string is unique, so the match is determined by the name |
| FilenameKey.DecimalValue | src/Utils/PngUtils.ts:10 | `parseInt(run, 10)` of a run of digits: a run of n digits is worth less than 10^n, and it is worth 0 exactly when all its digits are `0` |
| FilenameKey.KeyOfFirstRun | src/Utils/PngUtils.ts:10-11 | whatever the first maximal run of digits of a name is, the key is its decimal value |
| FilenameKey.Key | src/Utils/PngUtils.ts:10-11 | a name without digits has key 0 (the fallback to "0") |
| FilenameKey.KeyOfNumberedName | src/Utils/PngUtils.ts:10-11 | a digit-free prefix, then digits, then a rest not starting with a digit: the key is the decimal value of those digits |
| FilenameKey.LeadingZeroIgnored | src/Utils/PngUtils.ts:10 | `parseInt(…, 10)` ignores a leading zero |
| FilenameKey.LeadingZerosExample | src/Utils/PngUtils.ts:10-11 | `frame007.png` has key 7 |
| FilenameKey.NatToString | src/Utils/PngUtils.ts:16 | the `${index + 1}` rendering: non-empty, all digits, no leading zero, and `parseInt` of it gives back the number |
| FilenameKey.KeyOfRenderedNumber | src/Utils/PngUtils.ts:10-16 | the key of a name holding a rendered number `n` is `n` (key and rendering are inverse) |
| FilenameKey.NatToStringInjective | src/Utils/PngUtils.ts:16 | different numbers render differently |
| NumericOrder.Insert | src/Utils/PngUtils.ts:9-13 | inserting into a key-ordered sequence keeps it ordered and adds exactly that element |
| NumericOrder.FileKey | src/Utils/PngUtils.ts:10-11 | the number the comparator computes for a file: 0 when its name has no digit, otherwise the decimal value of the name's first maximal run of digits |
| NumericOrder.SortBy | src/Utils/PngUtils.ts:8-13 | the result is ordered by key and is a permutation of the input (same length, same multiset) |
| NumericOrder.InsertWithKey | src/Utils/PngUtils.ts:9-13 | insertion puts the new element in front of the elements of its own key and changes no other key's group |
| NumericOrder.SortByStable | src/Utils/PngUtils.ts:8-13 | stability: for every key, the elements with that key appear in input order |
| NumericOrder.SortByIsStableSort | src/Utils/PngUtils.ts:8-13 | SortBy satisfies the stable-sort specification: ordered, and every key's group kept |
| NumericOrder.StableSortUnique | src/Utils/PngUtils.ts:8-13 | two sequences that are both ordered by key and have the same group for every key are equal |
| NumericOrder.StableSortIsSortBy | src/Utils/PngUtils.ts:8-13 | any stable sort of the selection, however the engine implements it, equals SortBy |
| NumericOrder.NoDigitNamesKeepOrder | src/Utils/PngUtils.ts:8-13 | a selection with no digits in any name keeps its selection order |
| NumericOrder.FrameOrderExample | src/Utils/PngUtils.ts:8-13 | `frame2.png, frame1.png, frame10.png` becomes `frame1.png, frame2.png, frame10.png`, for any digit-free prefix in place of `frame` and any rest not starting with a digit in place of `.png` |
| Upload.HandlePngSequenceUpload | src/Utils/PngUtils.ts:1-20 | `[]` when `input.files` is null; otherwise one entry per selected file, the k-th (from 1) named `Capture<k>` |
| Upload.CaptureName | src/Utils/PngUtils.ts:16 | `Capture${index}` is `Capture` followed by the decimal rendering of `index` (no leading zero), whose digits `parseInt` reads back as `index` |
| Upload.CaptureNameKey | src/Utils/PngUtils.ts:10-16 | the comparator's key of the name `Capture${index}` is `index` again |
| Upload.CaptureAssets | src/Utils/PngUtils.ts:14-17 | the `map` keeps length and order: the k-th file (from 0) gives the k-th asset, with that file's URL and the name `Capture<k+1>` |
| Upload.SequenceUploadOrder | src/Utils/PngUtils.ts:8-17 | the k-th entry's URL is that of the k-th file of any stable sort of the selection by key |
| Upload.SequenceUploadPermutation | src/Utils/PngUtils.ts:5-17 | the entries come from a key-ordered permutation of the selection, one entry per file |
| Upload.CaptureNamesDistinct | src/Utils/PngUtils.ts:14-17 | no two entries share a name, whatever the original names were |
| Upload.FirstFile | src/Utils/PngUtils.ts:24-26 | there is no first file exactly when `files` is null or empty; otherwise it is `files[0]` |
| Upload.HandleTopOverlayUpload | src/Utils/PngUtils.ts:22-31 | null exactly when there is no selected file; otherwise the first file's URL and its name unchanged |
| Upload.HandleBottomOverlayUpload | src/Utils/PngUtils.ts:33-42 | null exactly when there is no selected file; otherwise the first file's URL and its name unchanged |
| Upload.HandleAudioUpload | src/Utils/PngUtils.ts:43-52 | null exactly when there is no selected file; otherwise the first file's URL as `audioSrc` and its name as `audioFileName` |
| Upload.SingleFileHandlersUseFirstOnly | src/Utils/PngUtils.ts:22-52 | selections that start with the same file give the same overlay and audio records |
| Compositor.LoadAll | src/Utils/PngUtils.ts:68-70 | `Promise.all` of the loads resolves exactly when every load does, with the images in input order |
| Compositor.Truthy | src/Utils/PngUtils.ts:72-73 | the `src ?` test: an absent source and `""` are falsy, every non-empty string is truthy |
| Compositor.LoadOverlay | src/Utils/PngUtils.ts:72-73 | an overlay is loaded exactly when its source is truthy (present and not `""`); otherwise it is null |
| Compositor.Urls | src/Utils/PngUtils.ts:69 | the URLs of the sequence entries, one per entry, in order |
| Compositor.PreloadImages | src/Utils/PngUtils.ts:63-76 | resolves exactly when every sequence image and every truthy overlay loads; then images in input order, and each overlay is present exactly when its source is truthy |
| Compositor.Canvas.constructor | src/Utils/PngUtils.ts:233 | a new canvas is 300 by 150 and blank |
| Compositor.Canvas.SetWidth | src/Utils/PngUtils.ts:241 | setting the width resizes and blanks the canvas, keeping its height |
| Compositor.Canvas.SetHeight | src/Utils/PngUtils.ts:242 | setting the height resizes and blanks the canvas, keeping its width |
| Compositor.Canvas.ClearRect | src/Utils/PngUtils.ts:249 | a clear covering the canvas discards earlier draws; a partial one is added to them |
| Compositor.Canvas.DrawImage | src/Utils/PngUtils.ts:251-253 | a draw is added after the earlier ones |
| Compositor.Canvas.GetImageData | src/Utils/PngUtils.ts:255 | reading the whole canvas gives its size and content, and throws (a rejection) exactly when its width or height is 0 |
| Compositor.Composite | src/Utils/PngUtils.ts:239-258 | one frame per image |
| Compositor.FrameDraws | src/Utils/PngUtils.ts:249-253 | one frame's calls: two, plus one per present overlay; the first clears the whole size and every other one draws at the whole size |
| Compositor.FrameLayerOrder | src/Utils/PngUtils.ts:249-253 | the images a frame puts on the canvas, bottom first, are the bottom overlay if present, the image, and the top overlay if present |
| Compositor.NoOverlaysBaseAlone | src/Utils/PngUtils.ts:249-253 | without overlays a frame is exactly a clear then the image |
| Compositor.CompositeFrame | src/Utils/PngUtils.ts:239-258 | frame k has the first image's size, starts with a clear, and layers image k between the overlays |
| Compositor.DrawFrame | src/Utils/PngUtils.ts:249-253 | one pass of the loop leaves exactly the calls of one frame on the offscreen canvas, at the canvas's own size, whatever was drawn before |
| Compositor.PreloadFrames | src/Utils/PngUtils.ts:227-259 | rejects with both canvases untouched for an empty list; otherwise resizes both canvases to the first image, rejects exactly when that size has a zero side, and else returns the composite frames in input order, leaving the visible canvas blank |
| Playback.KeptChunksAppend | src/Utils/PngUtils.ts:131-133 | the chunks kept from two delivery runs are those kept from each, in order |
| Playback.KeptChunks | src/Utils/PngUtils.ts:131-133 | the chunks kept from a run of deliveries: no more than were delivered, each with data, each one delivered |
| Playback.KeptAtPosition | src/Utils/PngUtils.ts:131-133 | a chunk delivered with data sits in the buffer right after the chunks kept from the deliveries before it |
| Playback.KeptChunksExactlyNonEmpty | src/Utils/PngUtils.ts:131-133 | a chunk is in the buffer if and only if it was delivered with data, and every chunk delivered with data is at the buffer index that follows the chunks kept before it (arrival order) |
| Playback.CaptureSession.constructor | src/Utils/PngUtils.ts:125-130 | a new recorder is inactive with an empty buffer and no result |
| Playback.CaptureSession.Start | src/Utils/PngUtils.ts:139 | `start()` puts the recorder in the recording state |
| Playback.CaptureSession.OnDataAvailable | src/Utils/PngUtils.ts:131-133 | a delivered chunk is appended exactly when its size is above 0; the buffer stays the kept part of all deliveries |
| Playback.CaptureSession.Stop | src/Utils/PngUtils.ts:168 | `stop()` makes the recorder inactive and is counted |
| Playback.CaptureSession.OnStop | src/Utils/PngUtils.ts:134-136 | the result is one `video/webm` blob of exactly the chunks delivered with data, in arrival order |
| Playback.FrameLoop.constructor | src/Utils/PngUtils.ts:163 | the counter starts at 0, nothing is painted, and the first call is due |
| Playback.FrameLoop.Tick | src/Utils/PngUtils.ts:166-174 | with frames left, paints `frames[i]`, increments `i` and arms the next call; otherwise stops the recorder once and arms nothing; `i` never exceeds the frame count |
| Playback.FrameLoop.Run | src/Utils/PngUtils.ts:163-177 | N frames take N + 1 calls; every frame is painted once in index order and the recorder is stopped exactly once |

## Left out

- Main process (`main.js`): window creation and application lifecycle, with no logic of their own.
- `URL.createObjectURL`, `new Image()` and the `onload`/`onerror` events of `loadImage`: host calls, taken as the parameters `createObjectUrl` and `load`.
- Upload.SingleFileHandlersUseFirstOnly: `createObjectUrl` is a fixed function of the file, but `URL.createObjectURL` returns a fresh URL on every call. The equality of the URLs holds only for that stand-in; the names and the choice of `files[0]` do not depend on it.
- `framerate` (default 60) and `videoBitrate` (default 10 Mbps) are passed only to host calls: `captureStream`, the `MediaRecorder` options and the timer interval. None of these is modelled, so the values are not either.
- Pixel semantics of `drawImage`, `clearRect`, `putImageData` and `getImageData`: a canvas holds the list of draw calls since it was last blanked.
- Compositor.Canvas.GetImageData: only a read of the whole canvas is modelled, as in the source. Reading part of a canvas needs pixels.
- A canvas and its 2D context are one object. The failure of `getContext("2d")` is not modelled: the offscreen canvas (line 236), the visible canvas in `playFramesWithAudio` (lines 157-159, which stop the recorder and throw) and in `playFrames` (lines 189-191, which reject before any recorder exists). All three depend on the host.
- FilenameKey.Key: keys are unbounded naturals. `parseInt` of a run of digits above 2^53 loses precision and the comparator subtracts floating-point numbers; neither is modelled.
- `downloadVideoFromPNGSequence` (lines 90-147) is not modelled as a whole. The audio pipeline (`fetch`, `decodeAudioData`, `AudioContext`, `MediaStream`) and `captureStream` are host calls. The source always runs `fetch(audioSrc!)`, so it has no video-only path to model.
- `mediaRecorder.onerror = reject` and the error values of rejected promises: a rejection is modelled without its reason.
- Timing: `setTimeout`, the interval `1000 / framerate` and the concurrency of `Promise.all` are not modelled. A timer firing is a call of `FrameLoop.Tick`; only the outcome of the loads is modelled, not their order.
- `playFrames` and `playFramesWithAudio` run the same frame loop; it is modelled once, as `FrameLoop`.
- Compositor.PreloadFrames: the source throws a `TypeError` when the list is empty (it destructures `preloadedImages[0]`). This is modelled as a rejection and the error is not named.
