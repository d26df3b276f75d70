/**
 * The capture session and the frame loop of src/Utils/PngUtils.ts
 * (downloadVideoFromPNGSequence, playFramesWithAudio, playFrames). The
 * `MediaRecorder` and its `chunks` buffer form a CaptureSession whose event
 * handlers are methods the host calls; `renderNextFrame` is FrameLoop.Tick,
 * called once for the first frame and once for each `setTimeout` it arms.
 */
module Playback {
  import opened Wrappers
  import opened Compositor

  const WebmMimeType: string := "video/webm"

  /** A `BlobPart` delivered by `dataavailable`: its size in bytes and an identity standing for its bytes. */
  datatype Chunk = Chunk(size: nat, id: nat)

  /** `new Blob(chunks, { type })`. */
  datatype Blob = Blob(parts: seq<Chunk>, mimeType: string)

  /** The `MediaRecorder` states the loop relies on. */
  datatype RecorderState = Inactive | Recording

  /** The chunks a sequence of deliveries keeps: those with data, in arrival order. */
  function KeptChunks(delivered: seq<Chunk>): (r: seq<Chunk>)
    ensures |r| <= |delivered|
    ensures forall k :: 0 <= k < |r| ==> r[k].size > 0
    ensures forall c :: c in r ==> c in delivered
  {
    if delivered == [] then []
    else (if delivered[0].size > 0 then [delivered[0]] else []) + KeptChunks(delivered[1..])
  }

  lemma {:induction false} KeptChunksAppend(a: seq<Chunk>, b: seq<Chunk>)
    ensures KeptChunks(a + b) == KeptChunks(a) + KeptChunks(b)
  {
    if a == [] {
      assert a + b == b;
    } else {
      assert (a + b)[1..] == a[1..] + b;
      KeptChunksAppend(a[1..], b);
    }
  }

  /** The buffer is exactly the delivered chunks with data, in arrival order: a chunk is kept
      if and only if it was delivered with data, and the chunk delivered at position `p` with
      data sits in the buffer right after the chunks kept from the deliveries before it. */
  lemma {:induction false} KeptChunksExactlyNonEmpty(delivered: seq<Chunk>)
    ensures forall c :: c in KeptChunks(delivered) <==> c in delivered && c.size > 0
    ensures forall p :: 0 <= p < |delivered| && delivered[p].size > 0 ==>
      |KeptChunks(delivered[..p])| < |KeptChunks(delivered)| &&
      KeptChunks(delivered)[|KeptChunks(delivered[..p])|] == delivered[p]
  {
    forall p | 0 <= p < |delivered| && delivered[p].size > 0
      ensures |KeptChunks(delivered[..p])| < |KeptChunks(delivered)|
      ensures KeptChunks(delivered)[|KeptChunks(delivered[..p])|] == delivered[p]
    {
      KeptAtPosition(delivered, p);
    }
    forall c | c in delivered && c.size > 0
      ensures c in KeptChunks(delivered)
    {
      var p :| 0 <= p < |delivered| && delivered[p] == c;
      KeptAtPosition(delivered, p);
    }
  }

  lemma KeptAtPosition(delivered: seq<Chunk>, p: nat)
    requires p < |delivered| && delivered[p].size > 0
    ensures |KeptChunks(delivered[..p])| < |KeptChunks(delivered)|
    ensures KeptChunks(delivered)[|KeptChunks(delivered[..p])|] == delivered[p]
  {
    var before, after := delivered[..p], delivered[p + 1..];
    assert delivered == before + ([delivered[p]] + after);
    KeptChunksAppend(before, [delivered[p]] + after);
    KeptChunksAppend([delivered[p]], after);
    assert KeptChunks([delivered[p]]) == [delivered[p]];
  }

  /** The `MediaRecorder` with its `ondataavailable` / `onstop` handlers and the `chunks` buffer. */
  class CaptureSession {
    var state: RecorderState
    /** The number of `stop()` calls so far. */
    var stopCalls: nat
    var chunks: seq<Chunk>
    /** Every chunk `dataavailable` delivered, in arrival order. */
    ghost var delivered: seq<Chunk>
    /** The `Blob` the promise resolves with, once `onstop` ran. */
    var result: Option<Blob>

    ghost predicate Valid()
      reads this
    {
      chunks == KeptChunks(delivered)
    }

    /** `new MediaRecorder(stream, { videoBitsPerSecond, mimeType: "video/webm" })` with an empty buffer. */
    constructor ()
      ensures Valid() && state == Inactive && stopCalls == 0 && chunks == [] && delivered == [] && result == None
    {
      state, stopCalls, chunks, delivered, result := Inactive, 0, [], [], None;
    }

    /** `mediaRecorder.start()`. */
    method Start()
      modifies this`state
      ensures state == Recording
    {
      state := Recording;
    }

    /** `ondataavailable`: the chunk is appended when it holds data. */
    method OnDataAvailable(data: Chunk)
      requires Valid()
      modifies this`chunks, this`delivered
      ensures Valid() && delivered == old(delivered) + [data]
      ensures chunks == if data.size > 0 then old(chunks) + [data] else old(chunks)
    {
      if data.size > 0 {
        chunks := chunks + [data];
      }
      delivered := delivered + [data];
      KeptChunksAppend(old(delivered), [data]);
    }

    /** `mediaRecorder.stop()`. */
    method Stop()
      modifies this`state, this`stopCalls
      ensures state == Inactive && stopCalls == old(stopCalls) + 1
    {
      state := Inactive;
      stopCalls := stopCalls + 1;
    }

    /** `onstop`: resolves with all kept chunks as one WebM blob, that is the chunks delivered
        with data, in arrival order. */
    method OnStop()
      requires Valid()
      modifies this`result
      ensures Valid() && result == Some(Blob(KeptChunks(delivered), WebmMimeType))
    {
      result := Some(Blob(chunks, WebmMimeType));
    }
  }

  /** The state `renderNextFrame` closes over: the counter `i`, what the visible canvas was
      given and whether another call is due. */
  class FrameLoop {
    const frames: seq<ImageData>
    const recorder: CaptureSession
    var i: nat
    /** The frames passed to `putImageData`, in call order. */
    var painted: seq<ImageData>
    /** A call of `renderNextFrame` is due: the first one, or the one the last `setTimeout` armed. */
    var pending: bool

    ghost predicate Valid()
      reads this, recorder
    {
      && i <= |frames|
      && painted == frames[..i]
      && (pending ==> recorder.stopCalls == 0)
      && (!pending ==> i == |frames| && recorder.stopCalls == 1 && recorder.state == Inactive)
    }

    /** `let i = 0`, with the first `renderNextFrame()` due. */
    constructor (frames: seq<ImageData>, recorder: CaptureSession)
      requires recorder.stopCalls == 0
      ensures this.frames == frames && this.recorder == recorder
      ensures Valid() && i == 0 && painted == [] && pending
    {
      this.frames, this.recorder := frames, recorder;
      i, painted, pending := 0, [], true;
    }

    /** One `renderNextFrame` call: paints `frames[i++]` and arms the next call, or, once every
        frame is painted, stops the recorder and arms nothing. */
    method Tick()
      requires Valid() && pending
      modifies this, recorder`state, recorder`stopCalls
      ensures Valid()
      ensures old(i) < |frames| ==>
        && pending && i == old(i) + 1 && painted == old(painted) + [frames[old(i)]]
        && recorder.stopCalls == old(recorder.stopCalls) && recorder.state == old(recorder.state)
      ensures old(i) == |frames| ==>
        && !pending && i == old(i) && painted == old(painted)
        && recorder.stopCalls == old(recorder.stopCalls) + 1 && recorder.state == Inactive
    {
      if i >= |frames| {
        recorder.Stop();
        pending := false;
        return;
      }
      painted := painted + [frames[i]];
      i := i + 1;
      pending := true;
    }

    /** Lets the timer run the loop to its end: N frames take N + 1 calls, each frame is painted
        once in order, and the recorder is stopped once. */
    method Run() returns (calls: nat)
      requires Valid() && pending && i == 0
      modifies this, recorder`state, recorder`stopCalls
      ensures Valid() && !pending
      ensures painted == frames && recorder.stopCalls == 1 && recorder.state == Inactive
      ensures calls == |frames| + 1
    {
      calls := 0;
      while pending
        invariant Valid()
        invariant pending ==> calls == i
        invariant !pending ==> calls == |frames| + 1
        decreases |frames| - i + (if pending then 1 else 0)
      {
        Tick();
        calls := calls + 1;
      }
      assert frames[..|frames|] == frames;
    }
  }
}
