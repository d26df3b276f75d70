/**
 * Image preloading and frame compositing (src/Utils/PngUtils.ts:
 * preloadImages, loadImage, preloadFrames). Decoding an image is a host call,
 * passed in as `load`; a canvas keeps the draw calls that make up what it
 * shows instead of pixels.
 */
module Compositor {
  import opened Wrappers
  import Upload

  /** A decoded `HTMLImageElement`: its source and natural size. */
  datatype Image = Image(src: string, width: nat, height: nat)

  /** How a promise settles. */
  datatype Settled<+T> = Rejected | Resolved(value: T)

  /** `Promise.all(urls.map(loadImage))`: every image in input order, or a rejection when any load fails. */
  function LoadAll(urls: seq<string>, load: string -> Settled<Image>): (r: Settled<seq<Image>>)
    ensures r.Resolved? <==> forall k :: 0 <= k < |urls| ==> load(urls[k]).Resolved?
    ensures r.Resolved? ==> |r.value| == |urls| && forall k :: 0 <= k < |urls| ==> load(urls[k]) == Resolved(r.value[k])
  {
    if urls == [] then
      Resolved([])
    else
      match (load(urls[0]), LoadAll(urls[1..], load))
      case (Resolved(first), Resolved(rest)) =>
        assert forall k :: 1 <= k < |urls| ==> urls[k] == urls[1..][k - 1];
        Resolved([first] + rest)
      case (Rejected, _) => Rejected
      case (_, Rejected) =>
        assert exists k :: 1 <= k < |urls| && urls[k] == urls[1..][k - 1] && load(urls[k]).Rejected?;
        Rejected
  }

  /** A JavaScript truthiness test of an optional string: present and not empty. */
  predicate Truthy(src: Option<string>): (b: bool)
    ensures b <==> src.Some? && |src.value| > 0
  {
    src.Some? && src.value != ""
  }

  /** `src ? await loadImage(src) : null`. */
  function LoadOverlay(src: Option<string>, load: string -> Settled<Image>): (r: Settled<Option<Image>>)
    ensures r.Rejected? <==> Truthy(src) && load(src.value).Rejected?
    ensures r.Resolved? ==> (r.value.Some? <==> Truthy(src))
    ensures r.Resolved? && r.value.Some? ==> load(src.value) == Resolved(r.value.value)
  {
    if Truthy(src) then
      match load(src.value)
      case Resolved(image) => Resolved(Some(image))
      case Rejected => Rejected
    else
      Resolved(None)
  }

  /** `{ preloadedImages, overlayTopImg, overlayBottomImg }`. */
  datatype Preloaded = Preloaded(preloadedImages: seq<Image>, overlayTopImg: Option<Image>, overlayBottomImg: Option<Image>)

  function Urls(pngSequence: seq<Upload.Asset>): (r: seq<string>)
    ensures |r| == |pngSequence|
    ensures forall k :: 0 <= k < |r| ==> r[k] == pngSequence[k].url
  {
    seq(|pngSequence|, k requires 0 <= k < |pngSequence| => pngSequence[k].url)
  }

  /** preloadImages: the sequence images in input order and each overlay whose source is truthy;
      a rejection when any of those loads fails. */
  function PreloadImages(pngSequence: seq<Upload.Asset>, overlayTopSrc: Option<string>, overlayBottomSrc: Option<string>,
                         load: string -> Settled<Image>): (r: Settled<Preloaded>)
    ensures r.Resolved? <==>
      && (forall k :: 0 <= k < |pngSequence| ==> load(pngSequence[k].url).Resolved?)
      && (Truthy(overlayTopSrc) ==> load(overlayTopSrc.value).Resolved?)
      && (Truthy(overlayBottomSrc) ==> load(overlayBottomSrc.value).Resolved?)
    ensures r.Resolved? ==>
      && |r.value.preloadedImages| == |pngSequence|
      && (forall k :: 0 <= k < |pngSequence| ==> load(pngSequence[k].url) == Resolved(r.value.preloadedImages[k]))
      && (r.value.overlayTopImg.Some? <==> Truthy(overlayTopSrc))
      && (r.value.overlayBottomImg.Some? <==> Truthy(overlayBottomSrc))
      && (r.value.overlayTopImg.Some? ==> load(overlayTopSrc.value) == Resolved(r.value.overlayTopImg.value))
      && (r.value.overlayBottomImg.Some? ==> load(overlayBottomSrc.value) == Resolved(r.value.overlayBottomImg.value))
  {
    var urls := Urls(pngSequence);
    match (LoadAll(urls, load), LoadOverlay(overlayTopSrc, load), LoadOverlay(overlayBottomSrc, load))
    case (Resolved(images), Resolved(top), Resolved(bottom)) => Resolved(Preloaded(images, top, bottom))
    case (Rejected, _, _) =>
      assert exists k :: 0 <= k < |urls| && load(urls[k]).Rejected?;
      Rejected
    case (_, Rejected, _) => Rejected
    case (_, _, Rejected) => Rejected
  }

  /** A call on a 2D context: `clearRect(0, 0, w, h)` or `drawImage(image, 0, 0, w, h)`. */
  datatype DrawOp = Clear(width: nat, height: nat) | Draw(image: Image, width: nat, height: nat)

  /** `getImageData(0, 0, w, h)` of a whole canvas: its size and the draw calls that make up its content. */
  datatype ImageData = ImageData(width: nat, height: nat, draws: seq<DrawOp>)

  /** A canvas together with its 2D context. */
  class Canvas {
    var width: nat
    var height: nat
    /** The draw calls since the canvas was last resized or cleared as a whole. */
    var draws: seq<DrawOp>

    /** `document.createElement("canvas")`: 300 by 150 and blank. */
    constructor ()
      ensures width == 300 && height == 150 && draws == []
    {
      width, height, draws := 300, 150, [];
    }

    /** Setting `width` resets the canvas to blank. */
    method SetWidth(w: nat)
      modifies this
      ensures width == w && height == old(height) && draws == []
    {
      width, draws := w, [];
    }

    /** Setting `height` resets the canvas to blank. */
    method SetHeight(h: nat)
      modifies this
      ensures height == h && width == old(width) && draws == []
    {
      height, draws := h, [];
    }

    /** A clear that covers the whole canvas leaves nothing of what was drawn before. */
    method ClearRect(w: nat, h: nat)
      modifies this`draws
      ensures draws == if w >= width && h >= height then [Clear(w, h)] else old(draws) + [Clear(w, h)]
    {
      if w >= width && h >= height {
        draws := [Clear(w, h)];
      } else {
        draws := draws + [Clear(w, h)];
      }
    }

    method DrawImage(image: Image, w: nat, h: nat)
      modifies this`draws
      ensures draws == old(draws) + [Draw(image, w, h)]
    {
      draws := draws + [Draw(image, w, h)];
    }

    /** Reading back the whole canvas; a zero width or height throws an `IndexSizeError`
        (the HTML standard's `getImageData`), modelled as a rejection. */
    method GetImageData(w: nat, h: nat) returns (data: Settled<ImageData>)
      requires w == width && h == height
      ensures data.Rejected? <==> w == 0 || h == 0
      ensures data.Resolved? ==> data.value == ImageData(width, height, draws)
    {
      if w == 0 || h == 0 {
        return Rejected;
      }
      data := Resolved(ImageData(w, h, draws));
    }
  }

  /** The draw call of an overlay, when there is one. */
  function OverlayDraw(overlay: Option<Image>, w: nat, h: nat): seq<DrawOp> {
    if overlay.Some? then [Draw(overlay.value, w, h)] else []
  }

  /** The calls that composite one frame: clear, bottom overlay, base image, top overlay. */
  function FrameDraws(image: Image, top: Option<Image>, bottom: Option<Image>, w: nat, h: nat): (r: seq<DrawOp>)
    ensures |r| == 2 + |Present(bottom)| + |Present(top)|
    ensures r[0] == Clear(w, h)
    ensures forall k :: 1 <= k < |r| ==> r[k].Draw? && r[k].width == w && r[k].height == h
  {
    [Clear(w, h)] + OverlayDraw(bottom, w, h) + [Draw(image, w, h)] + OverlayDraw(top, w, h)
  }

  /** The frames preloadFrames produces: one per image, all at the first image's size. */
  function Composite(images: seq<Image>, top: Option<Image>, bottom: Option<Image>): (r: seq<ImageData>)
    requires images != []
    ensures |r| == |images|
  {
    var w, h := images[0].width, images[0].height;
    seq(|images|, k requires 0 <= k < |images| => ImageData(w, h, FrameDraws(images[k], top, bottom, w, h)))
  }

  /** The images a sequence of draw calls puts on the canvas, bottom first. */
  function Layers(draws: seq<DrawOp>): seq<Image> {
    if draws == [] then []
    else (if draws[0].Draw? then [draws[0].image] else []) + Layers(draws[1..])
  }

  function Present(overlay: Option<Image>): seq<Image> {
    if overlay.Some? then [overlay.value] else []
  }

  lemma {:induction false} LayersAppend(a: seq<DrawOp>, b: seq<DrawOp>)
    ensures Layers(a + b) == Layers(a) + Layers(b)
  {
    if a == [] {
      assert a + b == b;
    } else {
      var head := if a[0].Draw? then [a[0].image] else [];
      assert (a + b)[0] == a[0];
      assert (a + b)[1..] == a[1..] + b;
      assert Layers(a + b) == head + Layers(a[1..] + b);
      LayersAppend(a[1..], b);
      assert Layers(a) == head + Layers(a[1..]);
    }
  }

  /** The images a frame puts on the canvas, bottom first: the bottom overlay (if any), the
      base image and the top overlay (if any). */
  lemma FrameLayerOrder(image: Image, top: Option<Image>, bottom: Option<Image>, w: nat, h: nat)
    ensures Layers(FrameDraws(image, top, bottom, w, h)) == Present(bottom) + [image] + Present(top)
  {
    var c, b, m, t := [Clear(w, h)], OverlayDraw(bottom, w, h), [Draw(image, w, h)], OverlayDraw(top, w, h);
    LayersAppend(c + b + m, t);
    LayersAppend(c + b, m);
    LayersAppend(c, b);
  }

  /** Without overlays a frame is the base image alone on a cleared canvas. */
  lemma NoOverlaysBaseAlone(image: Image, w: nat, h: nat)
    ensures FrameDraws(image, None, None, w, h) == [Clear(w, h), Draw(image, w, h)]
  {
  }

  /** Frame k shows image k between the overlays, at the first image's size. */
  lemma CompositeFrame(images: seq<Image>, top: Option<Image>, bottom: Option<Image>, k: nat)
    requires k < |images|
    ensures var f := Composite(images, top, bottom)[k];
      && f.width == images[0].width && f.height == images[0].height
      && f.draws[0] == Clear(f.width, f.height)
      && Layers(f.draws) == Present(bottom) + [images[k]] + Present(top)
  {
    FrameLayerOrder(images[k], top, bottom, images[0].width, images[0].height);
  }

  /** The body of preloadFrames' loop up to `getImageData`: clear the whole offscreen canvas, then
      draw the bottom overlay, the image and the top overlay over all of it. */
  method DrawFrame(offscreen: Canvas, image: Image, top: Option<Image>, bottom: Option<Image>)
    modifies offscreen`draws
    ensures offscreen.draws == FrameDraws(image, top, bottom, offscreen.width, offscreen.height)
  {
    var w, h := offscreen.width, offscreen.height;
    offscreen.ClearRect(w, h);
    if bottom.Some? {
      offscreen.DrawImage(bottom.value, w, h);
    }
    offscreen.DrawImage(image, w, h);
    if top.Some? {
      offscreen.DrawImage(top.value, w, h);
    }
  }

  /**
   * preloadFrames: sizes the offscreen and the visible canvas after the first image, then
   * composites one frame per image in input order. An empty image list fails (the source
   * reads the size of `preloadedImages[0]`) before either canvas is touched; a first image of
   * zero width or height fails at the first `getImageData`, after both canvases were resized.
   */
  method PreloadFrames(preloadedImages: seq<Image>, overlayTopImg: Option<Image>, overlayBottomImg: Option<Image>, canvas: Canvas)
    returns (frames: Settled<seq<ImageData>>)
    modifies canvas
    ensures preloadedImages == [] ==> frames.Rejected? && unchanged(canvas)
    ensures preloadedImages != [] ==>
      && (frames.Rejected? <==> preloadedImages[0].width == 0 || preloadedImages[0].height == 0)
      && (frames.Resolved? ==> frames.value == Composite(preloadedImages, overlayTopImg, overlayBottomImg))
      && canvas.width == preloadedImages[0].width && canvas.height == preloadedImages[0].height
      && canvas.draws == []
  {
    var offscreen := new Canvas();
    if preloadedImages == [] {
      return Rejected;
    }
    var width, height := preloadedImages[0].width, preloadedImages[0].height;
    offscreen.SetWidth(width);
    offscreen.SetHeight(height);
    canvas.SetWidth(width);
    canvas.SetHeight(height);

    var done: seq<ImageData> := [];
    for n := 0 to |preloadedImages|
      invariant offscreen.width == width && offscreen.height == height
      invariant canvas.width == width && canvas.height == height && canvas.draws == []
      invariant |done| == n
      invariant n > 0 ==> width > 0 && height > 0
      invariant forall k :: 0 <= k < n ==>
        done[k] == ImageData(width, height, FrameDraws(preloadedImages[k], overlayTopImg, overlayBottomImg, width, height))
    {
      DrawFrame(offscreen, preloadedImages[n], overlayTopImg, overlayBottomImg);
      var data := offscreen.GetImageData(width, height);
      if data.Rejected? {
        return Rejected;
      }
      done := done + [data.value];
    }
    ghost var expected := Composite(preloadedImages, overlayTopImg, overlayBottomImg);
    assert done == expected;
    frames := Resolved(done);
  }
}
