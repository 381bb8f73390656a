/** `main` of examples/rnnoise_wrapper_demo.c: read the input in chunks of at
    most 160 samples, re-block them through the ring buffer into 480-sample
    frames, denoise each frame, drop the first denoised frame and pad the
    last partial frame with silence.

    The foreign denoiser is a `step` from a state and a frame to the next
    state and the denoised frame; the files are a sequence of chunks (what
    the successive `fread` calls return) and the sequence of samples written. */
module WrapperDemo {
  import opened RingBuffers

  const FrameSize: nat := 480
  const ChunkSize: nat := 160
  const BufferCapacity: nat := FrameSize * 4

  /** The usage check: the program name, two files and an optional model. */
  predicate ArgumentsAccepted(argc: int)
  {
    3 <= argc <= 4
  }

  /** A model file is loaded only when a third argument is given. */
  predicate LoadsModel(argc: int)
  {
    argc == 4
  }

  /** `rnnoise_process_frame` turns a 480-sample frame into a 480-sample frame. */
  ghost predicate PreservesFrameLength<D(!new), T(!new)>(step: (D, seq<T>) -> (D, seq<T>))
  {
    forall d: D, frame: seq<T> :: |frame| == FrameSize ==> |step(d, frame).1| == FrameSize
  }

  /** What successive `fread` calls can return before the final 0: between
      1 and 160 samples each. */
  predicate ChunksOfFile<T>(chunks: seq<seq<T>>)
  {
    forall i :: 0 <= i < |chunks| ==> 0 < |chunks[i]| <= ChunkSize
  }

  function Flatten<T>(chunks: seq<seq<T>>): seq<T>
  {
    if chunks == [] then [] else chunks[0] + Flatten(chunks[1..])
  }

  function Silence<T>(zero: T, n: nat): (r: seq<T>)
    ensures |r| == n && forall i :: 0 <= i < n ==> r[i] == zero
  {
    seq(n, _ => zero)
  }

  /** The samples the program writes for the sample stream `s`, the
      denoiser being in state `d`: frames are cut from the front, the first
      denoised frame is dropped while `warmup` holds, and a short last frame
      is padded with `zero` and written back only as far as it was filled. */
  function Denoised<D(!new), T(!new)>(step: (D, seq<T>) -> (D, seq<T>), zero: T, d: D, s: seq<T>, warmup: bool): seq<T>
    requires PreservesFrameLength(step)
    decreases |s|
  {
    if |s| >= FrameSize then
      var r := step(d, s[..FrameSize]);
      (if warmup then [] else r.1) + Denoised(step, zero, r.0, s[FrameSize..], false)
    else if |s| > 0 then
      var r := step(d, s + Silence(zero, FrameSize - |s|));
      if warmup then [] else r.1[..|s|]
    else []
  }

  /** N input samples give max(0, N - 480) output samples; after warm-up,
      exactly as many as went in. */
  lemma {:induction false} DenoisedLength<D(!new), T(!new)>(step: (D, seq<T>) -> (D, seq<T>), zero: T, d: D, s: seq<T>, warmup: bool)
    requires PreservesFrameLength(step)
    ensures |Denoised(step, zero, d, s, warmup)| ==
      if !warmup then |s| else if |s| > FrameSize then |s| - FrameSize else 0
    decreases |s|
  {
    if |s| >= FrameSize {
      var r := step(d, s[..FrameSize]);
      DenoisedLength(step, zero, r.0, s[FrameSize..], false);
    }
  }

  /** After warm-up, the output starts with the first frame denoised: its
      first 480 samples are exactly what the denoiser made of the first 480
      input samples. */
  lemma {:induction false} DenoisedFrameAligned<D(!new), T(!new)>(step: (D, seq<T>) -> (D, seq<T>), zero: T, d: D, s: seq<T>)
    requires PreservesFrameLength(step)
    requires |s| >= FrameSize
    ensures Denoised(step, zero, d, s, false)[..FrameSize] == step(d, s[..FrameSize]).1
  {
    var r := step(d, s[..FrameSize]);
    assert Denoised(step, zero, d, s, false) == r.1 + Denoised(step, zero, r.0, s[FrameSize..], false);
  }

  /** The inner loop of `main`: while a whole frame is buffered, read it,
      denoise it and write it unless still warming up. `rest` is the input
      not yet read from the file; the samples written so far plus what the
      remaining stream will produce stay the same. */
  method DrainFrames<D(!new), T(0,!new)>(buffer: RingBuffer<T>, frame: array<T>, ghost rest: seq<T>,
                                         step: (D, seq<T>) -> (D, seq<T>), zero: T,
                                         d0: D, warmup0: bool, output0: seq<T>)
    returns (d: D, warmup: bool, output: seq<T>)
    requires buffer.Valid() && buffer.capacity == BufferCapacity && buffer.size < FrameSize + ChunkSize
    requires frame.Length == FrameSize && frame != buffer.data
    requires PreservesFrameLength(step)
    modifies buffer, frame
    ensures buffer.Valid() && buffer.data == old(buffer.data) && buffer.capacity == BufferCapacity
    ensures buffer.size < FrameSize
    ensures output + Denoised(step, zero, d, buffer.Contents + rest, warmup) ==
      output0 + Denoised(step, zero, d0, old(buffer.Contents) + rest, warmup0)
  {
    d, warmup, output := d0, warmup0, output0;
    while buffer.size >= FrameSize
      invariant buffer.Valid() && buffer.data == old(buffer.data) && buffer.capacity == BufferCapacity
      invariant buffer.size < FrameSize + ChunkSize
      invariant output + Denoised(step, zero, d, buffer.Contents + rest, warmup) ==
        output0 + Denoised(step, zero, d0, old(buffer.Contents) + rest, warmup0)
      decreases buffer.size
    {
      ghost var s := buffer.Contents + rest;
      var frameCount := buffer.Read(frame, FrameSize);
      assert frameCount == FrameSize;  // the source's `frame_count < FRAME_SIZE` exit never fires
      assert frame[..] == s[..FrameSize];
      assert s[FrameSize..] == buffer.Contents + rest;
      var r := step(d, frame[..]);
      d := r.0;
      if !warmup {
        output := output + r.1;
      }
      warmup := false;
    }
  }

  /** The tail of `main`: a partial frame left in the buffer is padded with
      silence, denoised, and written back as far as it was filled, unless
      no frame has been processed yet. */
  method FlushTail<D(!new), T(0,!new)>(buffer: RingBuffer<T>, frame: array<T>,
                                       step: (D, seq<T>) -> (D, seq<T>), zero: T,
                                       d: D, warmup: bool, output0: seq<T>)
    returns (output: seq<T>)
    requires buffer.Valid() && buffer.size < FrameSize
    requires frame.Length == FrameSize && frame != buffer.data
    requires PreservesFrameLength(step)
    modifies buffer, frame
    ensures output == output0 + Denoised(step, zero, d, old(buffer.Contents), warmup)
  {
    output := output0;
    if buffer.size > 0 {
      ghost var tail := buffer.Contents;
      var remaining := buffer.Read(frame, buffer.size);
      for j := remaining to FrameSize
        invariant forall m :: 0 <= m < remaining ==> frame[m] == tail[m]
        invariant forall m :: remaining <= m < j ==> frame[m] == zero
      {
        frame[j] := zero;
      }
      assert frame[..] == tail + Silence(zero, FrameSize - remaining);
      var r := step(d, frame[..]);
      if !warmup {
        output := output + r.1[..remaining];
      }
    }
  }

  /** The read loop and the tail of `main`, on a freshly initialised buffer:
      the output is the denoised stream, however `fread` cut it into chunks. */
  method Reblock<D(!new), T(0,!new)>(buffer: RingBuffer<T>, chunks: seq<seq<T>>, init: D,
                                     step: (D, seq<T>) -> (D, seq<T>), zero: T)
    returns (output: seq<T>)
    requires buffer.Valid() && buffer.capacity == BufferCapacity && buffer.Contents == []
    requires PreservesFrameLength(step) && ChunksOfFile(chunks)
    modifies buffer, buffer.data
    ensures output == Denoised(step, zero, init, Flatten(chunks), true)
  {
    ghost var whole := Denoised(step, zero, init, Flatten(chunks), true);
    var frame := new T[FrameSize];
    var warmup := true;
    var d := init;
    output := [];
    var i := 0;
    assert chunks[i..] == chunks;
    assert buffer.Contents + Flatten(chunks[i..]) == Flatten(chunks);
    while i < |chunks|
      invariant i <= |chunks|
      invariant buffer.Valid() && buffer.data == old(buffer.data) && buffer.capacity == BufferCapacity
      invariant buffer.size < FrameSize
      invariant output + Denoised(step, zero, d, buffer.Contents + Flatten(chunks[i..]), warmup) == whole
    {
      var chunk := chunks[i];
      assert chunks[i..] == [chunk] + chunks[i + 1..];
      ghost var held := buffer.Contents;
      var written := buffer.Write(chunk, |chunk|);
      assert written == |chunk|;  // occupancy stays below 480 + 160, so nothing is dropped
      assert buffer.Contents + Flatten(chunks[i + 1..]) == held + Flatten(chunks[i..]);
      i := i + 1;
      d, warmup, output := DrainFrames(buffer, frame, Flatten(chunks[i..]), step, zero, d, warmup, output);
    }
    assert chunks[i..] == [];
    assert buffer.Contents + Flatten(chunks[i..]) == buffer.Contents;
    output := FlushTail(buffer, frame, step, zero, d, warmup, output);
  }

  /** The external outcomes `main` depends on: opening both files, loading
      the model, creating the denoiser state and allocating the buffer. */
  datatype Environment = Environment(
    inputOpens: bool, outputOpens: bool, modelLoads: bool, stateCreated: bool, bufferAllocates: bool)

  /** `main`: the exit status, the samples written to the output file, and
      whether a model load was attempted. */
  method Run<D(!new), T(0,!new)>(argc: int, env: Environment, chunks: seq<seq<T>>, init: D,
                      step: (D, seq<T>) -> (D, seq<T>), zero: T)
    returns (exitCode: int, output: seq<T>, modelLoadAttempted: bool)
    requires PreservesFrameLength(step) && ChunksOfFile(chunks)
    ensures exitCode == 0 || exitCode == 1
    ensures modelLoadAttempted <==> LoadsModel(argc) && env.inputOpens && env.outputOpens
    ensures exitCode == 0 <==>
      ArgumentsAccepted(argc) && env.inputOpens && env.outputOpens &&
      (LoadsModel(argc) ==> env.modelLoads) && env.stateCreated && env.bufferAllocates
    ensures exitCode == 0 ==> output == Denoised(step, zero, init, Flatten(chunks), true)
    ensures exitCode == 0 ==>
      |output| == if |Flatten(chunks)| > FrameSize then |Flatten(chunks)| - FrameSize else 0
    ensures exitCode != 0 ==> output == []
  {
    output, modelLoadAttempted := [], false;
    if argc < 3 || argc > 4 {
      return 1, output, modelLoadAttempted;
    }
    if !env.inputOpens || !env.outputOpens {
      return 1, output, modelLoadAttempted;
    }
    if argc == 4 {
      modelLoadAttempted := true;
      if !env.modelLoads {
        return 1, output, modelLoadAttempted;
      }
    }
    if !env.stateCreated {
      return 1, output, modelLoadAttempted;
    }
    var buffer := new RingBuffer<T>();
    var ok := buffer.Init(BufferCapacity, env.bufferAllocates);
    if ok == 0 {
      return 1, output, modelLoadAttempted;
    }
    output := Reblock(buffer, chunks, init, step, zero);
    DenoisedLength(step, zero, init, Flatten(chunks), true);
    buffer.Free();
    exitCode := 0;
  }
}
