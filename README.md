# rnnoise HTTP service: a verified model of its core

This project models the two parts of the rnnoise service that decide what
happens to audio.

**The wrapper demo** (`examples/rnnoise_wrapper_demo.c`) is the command-line
program the server runs to denoise raw PCM.
- Its fixed-capacity circular FIFO, `RingBuffer`, is a Dafny class over an
  array with the same five fields. A ghost sequence holds what the buffer
  contains.
- `ring_buffer_init`, `ring_buffer_free`, `ring_buffer_write` and
  `ring_buffer_read` are methods that update the same fields;
  `ring_buffer_write` and `ring_buffer_read` keep their element-by-element
  loops.
- `main` is modelled with its checks and loops:
  - the argument check;
  - the chain of open, load, create and allocate checks;
  - the read loop that re-blocks 160-sample chunks into 480-sample frames;
  - dropping the first denoised frame;
  - padding the final partial frame.
- It is proved against a recursive specification, `Denoised`, of what the
  program writes. From that follow the output length, max(0, N - 480), and
  that the buffer never drops a sample.

**The HTTP server** (`server/app.py`) is modelled in these parts:
- the S3 URI parser;
- the output-format codec table;
- the argument vectors given to ffmpeg and to the denoiser;
- the three-stage pipeline `_process_audio` (decode, denoise, then copy or
  encode);
- the two routes, `POST /denoise` and `POST /denoise/s3`, with their error
  classification.

Pure code is written as functions and lemmas. Code that works step by step is
written as methods. The methods `ProcessAudio` and `DenoiseDirect` are proved
equal to running the pure plan (`Plan`, `RunPlan`). `DenoiseS3` is proved to
run that plan whenever both downloads succeed: on the stored input, which it
decodes, and on the file store with exactly the downloads added. Its
downloads, the cause of each failure, its upload and its response are all
fixed, the last two by the run's outcome and the upload oracle.

Some things are parameters of the model rather than part of it:
- external processes, as an oracle from an argument vector and the files
  present to an exit status and the files afterwards;
- the object store, as download and upload oracles;
- the scratch directory names;
- whether the default model file exists, independent of the file store the
  processes see;
- in the C program, the successes of `fopen`, model loading,
  `rnnoise_create` and `malloc`;
- the denoiser itself, as a length-preserving step from a state and a frame
  to the next state and a frame;
- the input file, as the sequence of chunks successive `fread` calls return
  (1 to 160 samples each).

Two behaviours of the code are worth stating outright:
- **Empty URI parts.** `_parse_s3_uri` accepts an empty bucket and an empty
  key: `s3:///` parses to `("", "")` (`S3Uri.EmptyPartsAccepted`).
- **Malformed model URI.** `model_s3_uri` is parsed inside the `try` that
  follows the input download, so a malformed one is a 500 reported after the
  input has been fetched, not a 400 (`Routes.DenoiseS3`, `Routes.Transfer`).

## Model

| member | source | states |
|---|---|---|
| Text.Lower | server/app.py:69 | `Lower`, the model of `str.lower()`, keeps the length and lowers every character on its own (ASCII letters only) |
| Text.LowerIdempotent | server/app.py:69 | lowering an already lowered format token changes nothing |
| Text.ContainsInfix | server/app.py:143 | a content type with `application/octet-stream` anywhere in it passes the substring test |
| Text.ContainsOccurs | server/app.py:143 | conversely, a content type that passes the test holds `application/octet-stream` at some position, so the 415 decision is Python's substring test in both directions |
| Text.ContainsNeedsRoom | server/app.py:143 | a content type shorter than `application/octet-stream`, including the absent header's "", fails the test |
| Text.SplitAtFirst | server/app.py:88 | `split("/", 1)` gives two parts exactly when a `/` occurs; the head has no `/`, and head, `/` and tail rebuild the string |
| Text.SplitAtFirstOfJoined | server/app.py:88 | the split happens at the first separator: a head without one is recovered exactly |
| Text.Join | server/app.py:107 | `os.path.join` of a directory and a relative name starts with the directory and ends with the name |
| S3Uri.ParseS3Uri | server/app.py:85-91 | parsing succeeds exactly when the URI starts with `s3://` and a `/` follows the scheme; a wrong scheme is the first error, and a right scheme with no further `/` is the missing-separator error; on success the bucket has no `/` and bucket, `/` and key rebuild the text after the scheme |
| S3Uri.ParseFormat | server/app.py:85-91 | every location whose bucket has no `/` parses back from its URI, with any key, empty parts included |
| S3Uri.FormatParse | server/app.py:85-91 | every URI that parses is rebuilt exactly from its bucket and key |
| S3Uri.EmptyPartsAccepted | server/app.py:88-91 | `s3:///` is accepted with an empty bucket and an empty key |
| Commands.CodecFor | server/app.py:59-69 | the encoder for an output format: the table entry of its lower-cased token, else `pcm_s16le` (specified by `CodecLookup`) |
| Commands.DecodeArgv | server/app.py:35-44 | the ffmpeg argument vector that decodes `src` into raw PCM at `dst` (its meaning is `DecodeCommandMeaning`) |
| Commands.EncodeArgv | server/app.py:70-79 | the ffmpeg argument vector that encodes raw PCM at `src` into `dst` with a codec (its meaning is `EncodeCommandMeaning`) |
| Commands.DenoiseArgv | server/app.py:95-97 | the denoiser's argument vector, with the model appended when truthy (its shape is `DenoiseArgvShape`) |
| Commands.CodecLookup | server/app.py:59-69 | the codec lookup always yields one of the table's encoders, ignores letter case, uses the table for the six known tokens and `pcm_s16le` for any other token |
| Commands.DenoiseArgvShape | server/app.py:95-97 | the denoiser gets binary, input and output, plus a fourth argument exactly when the model path is truthy; the demo's usage check accepts that argument count and loads a model exactly for four arguments |
| Commands.DecodeCommandMeaning | server/app.py:35-44 | read as an ffmpeg command line, decoding takes `src` with no input options and writes `dst` as `s16le`, 48000 Hz, mono, with the `pcm_s16le` encoder; the output options are exactly `-acodec pcm_s16le -ar 48000 -ac 1 -f s16le -y` |
| Commands.EncodeCommandMeaning | server/app.py:70-79 | encoding reads `src` declared as `s16le`, 48000 Hz, mono (options before `-i`) and writes `dst` with the chosen codec and `-y` only |
| Pipeline.Perform | server/app.py:45-57 | one stage: a process stage fails with its own error on a non-zero status; a copy puts the source's bytes at the destination and fails when there is no source (see also :80-82, :98-100) |
| Pipeline.Plan | server/app.py:103-119 | the stages `_process_audio` runs, in order (specified by `PlanShape` and `PlanWired`) |
| Pipeline.RunPlan | server/app.py:103-119 | running stages in order and stopping at the first failure, which `_process_audio`'s exceptions do (specified by `RunPlanTrace`) |
| Pipeline.RunPlanTrace | server/app.py:103-119 | stages start in plan order; every stage started before the last one completed; no error exactly when the whole plan ran and completed; otherwise the last stage started is the one that failed |
| Pipeline.PlanShape | server/app.py:106-119 | a decode stage comes first exactly when the input ends in neither `.pcm` nor `.raw`; one denoise stage always follows, on the decoded or the original input; the last stage is a copy exactly for a raw format and an encode with the table's codec otherwise |
| Pipeline.PlanWired | server/app.py:107-119 | the first stage reads the input path, each later stage reads the file the previous one wrote, and the last writes the output path |
| Pipeline.CopyLast | server/app.py:52-57 | a successful run ending in a copy leaves at the destination exactly the bytes the earlier stages left at the source |
| Pipeline.RawIsPassThrough | server/app.py:52-57 | for the raw format the output file is a byte-identical copy of what the denoiser wrote, and nothing runs after the denoiser |
| Pipeline.ProcessAudio | server/app.py:103-119 | the three steps, each raising on failure, produce exactly the stages started, the files and the error of running the plan |
| Routes.ResolveModel | server/app.py:147 | the direct route's model: a truthy query value, else the default if it exists, else none (specified by `ModelPrecedence`) |
| Routes.MediaType | server/app.py:174-180 | the reply's content type for an output format (specified by `MediaTypeCases`) |
| Routes.DeclaresOctetStream | server/app.py:142-143 | the 415 check: the content type, empty when absent, contains `application/octet-stream` (see `ContainsInfix`, `ContainsNeedsRoom`) |
| Routes.DirectFormat | server/app.py:148 | the direct route's format: the query value even when empty, else `raw` (used in `DenoiseDirect`'s contract) |
| Routes.S3Format | server/app.py:231 | the storage route's format, `output_format or "raw"`, also echoed at :248 (used in `Transfer`'s contract) |
| Routes.S3Model | server/app.py:220-227 | the storage route's model: the downloaded `model.bin` for a truthy model URI, else the default if it exists (used in `FetchModel`'s contract) |
| Routes.Concluded | server/app.py:229-242 | how a run ends the storage route: a failed stage or a missing output is a 500 with no upload; otherwise the output is uploaded and the upload's failure, if any, is the 500 |
| Routes.ModelPrecedence | server/app.py:146-147 | the denoiser gets a model argument exactly when a truthy model was requested or the default file exists and is named by a non-empty path; a requested model always wins over the default |
| Routes.MediaTypeCases | server/app.py:174-180 | the reply is labelled audio exactly for `wav`, `mp3` and `flac` in any case, and each label matches the codec the table picks for that format |
| Routes.DenoiseDirect | server/app.py:142-182 | a missing octet-stream content type gives 415 and an empty body 400, both before any processing; otherwise the body is processed as the plan says, a failed stage gives 500, and success returns the output file's bytes with the media type of the format |
| Routes.DirectNeverDecodes | server/app.py:159-166 | the inline route stores the body as `input.pcm`, so its plan is denoise then finish, never decode |
| Routes.S3AlwaysDecodes | server/app.py:209-232 | the storage route stores the input as `input`, so its plan always decodes first |
| Routes.FetchModel | server/app.py:220-227 | a truthy model URI is parsed (a malformed one is a 500) and downloaded to `model.bin`, which then wins; otherwise the default is used if it exists |
| Routes.ProcessStored | server/app.py:229-232 | the storage route's processing is the plan run on the downloaded input, and it starts with a decode |
| Routes.ProcessAndPublish | server/app.py:229-242 | a failed stage or a missing output is a 500 with no upload; otherwise exactly the output file is uploaded to the destination, and the step fails, with a 500, exactly when the upload does (`Concluded`) |
| Routes.Transferred | server/app.py:206-249 | what the storage route does once both URIs parse: the input is downloaded first to `input`, the model second to `model.bin`; a failed input download, a malformed model URI or a failed model download is a 500 before processing, with its own cause; once both downloads succeed the input is always processed, on the store with exactly the downloads written over it, at `input` to `output`, decoding first, with the resolved model and `output_format or "raw"`; the run then decides the upload and the response (`Concluded`); the reply echoes the request |
| Routes.StoredFiles | server/app.py:213-227 | the file store after the downloads: the input's bytes at `input` and, for a truthy model URI, the model's bytes at `model.bin`, every other file unchanged |
| Routes.Transfer | server/app.py:206-249 | its outcome is `Transferred` from the parsed input location to the parsed output location |
| Routes.DenoiseS3 | server/app.py:198-249 | a malformed input or output URI, and nothing else, gives 400 with no transfer; every other failure is 500; once both parse, its outcome is `Transferred` from the input URI's location to the output URI's location, so all of that row holds of the route |
| RingBuffers.RingBuffer.constructor | examples/rnnoise_wrapper_demo.c:8-14 | a buffer before initialisation holds nothing and has no storage |
| RingBuffers.RingBuffer.Init | examples/rnnoise_wrapper_demo.c:16-26 | when allocation succeeds it returns 1 with fresh storage of the given capacity, an empty buffer and both positions 0; otherwise it returns 0 with `data` NULL and the other fields unchanged |
| RingBuffers.RingBuffer.Free | examples/rnnoise_wrapper_demo.c:28-35 | storage released, `data` NULL and every counter 0 |
| RingBuffers.RingBuffer.WriteOne | examples/rnnoise_wrapper_demo.c:40-43 | one element goes into the write cell, the write position advances modulo the capacity, and only that cell changes |
| RingBuffers.RingBuffer.Write | examples/rnnoise_wrapper_demo.c:37-46 | it returns min(count, capacity - size), appends exactly that prefix of the input, leaves the read position alone, writes nothing and changes no field when the buffer is full, and touches only the cells it wrote |
| RingBuffers.RingBuffer.ReadOne | examples/rnnoise_wrapper_demo.c:51-54 | the element at the read position is the oldest one held; the buffer loses exactly it and the write position stays |
| RingBuffers.RingBuffer.Read | examples/rnnoise_wrapper_demo.c:48-57 | it returns min(count, size), delivers the oldest elements in FIFO order into the output's prefix, leaves the rest of the output and the storage as they were, and the buffer loses exactly that prefix |
| RingBuffers.FieldInvariants | examples/rnnoise_wrapper_demo.c:37-57 | size never exceeds capacity, both positions stay below capacity, and the write position equals (read position + size) % capacity |
| RingBuffers.WriteThenRead | examples/rnnoise_wrapper_demo.c:37-57 | writing up to `capacity` elements into a fresh buffer and reading as many gives them back unchanged and in order |
| WrapperDemo.Denoised | examples/rnnoise_wrapper_demo.c:122-160 | what the program writes: each whole 480-sample frame denoised, the first dropped, and a final partial frame zero-padded, denoised and cut back (specified by `DenoisedLength`, `DenoisedFrameAligned`) |
| WrapperDemo.DenoisedLength | examples/rnnoise_wrapper_demo.c:122-160 | N input samples give max(0, N - 480) output samples; after warm-up, exactly N |
| WrapperDemo.DenoisedFrameAligned | examples/rnnoise_wrapper_demo.c:132-145 | after warm-up the first 480 output samples are the denoised first frame |
| WrapperDemo.DrainFrames | examples/rnnoise_wrapper_demo.c:132-145 | whole frames are drained until fewer than 480 samples remain; every frame read is full, so the `frame_count < FRAME_SIZE` exit never fires; output so far plus what the rest will produce is unchanged |
| WrapperDemo.FlushTail | examples/rnnoise_wrapper_demo.c:148-160 | a partial last frame is zero-padded to 480, denoised, and written back only up to its filled length, and only after warm-up |
| WrapperDemo.Reblock | examples/rnnoise_wrapper_demo.c:122-160 | the program writes exactly the `Denoised` specification of the concatenated input, however `fread` cut it into chunks; every chunk is accepted in full |
| WrapperDemo.Run | examples/rnnoise_wrapper_demo.c:59-171 | exit status 0 exactly when the arguments number 3 or 4 and every open, load, create and allocate succeeds, else 1 with nothing written; a model load is attempted exactly for four arguments once both files open; on success the output is the specification, of length max(0, N - 480) |

## Left out

- Concurrency is not modelled: the semaphore, the `_active_requests`
  counter, `run_in_executor` and the 503 busy check. Their meaning depends on
  how awaits interleave. The routes are modelled from just after the busy
  check.
- Object-store transfers are oracles. The model keeps only whether a
  failure was a `ClientError` or another exception, not the error text.
- `subprocess.run`, `os.spawnvp`, the temporary directories and file I/O
  are oracles and parameters.
  - The removal of the scratch directories when they close is not modelled.
  - The text of error details (stderr, exception messages) is not modelled.
  - Only the error's cause and its status code are kept.
- FastAPI routing, request validation, the `/health` route and the
  environment-variable configuration are not modelled. The executables and
  the default model path are a `Commands.Config` parameter.
- `os.path.exists(DEFAULT_MODEL)` is a boolean parameter,
  `defaultModelExists`. It is not tied to the file store the denoiser
  runs on, so the model allows a default that exists but is absent from that
  store.
- `Text.Lower` lowers ASCII letters only. Python's `str.lower` also folds
  other scripts. That difference does not affect the table keys, which are
  ASCII.
- The foreign calls in `rnnoise.h` (`rnnoise_create`,
  `rnnoise_process_frame`, model loading and freeing) are not modelled. Their
  successes are parameters of `WrapperDemo.Run`.
- `rnnoise_process_frame` is a length-preserving step whose frame the model
  takes as a returned sequence. In the source it updates `frame` in place.
- The short-to-float and float-to-short sample casts are not modelled.
  Samples are an abstract element type.
- `fopen`, `fread`, `fwrite` and `fclose` are not modelled. The input is a
  sequence of chunks and the output a sequence of samples.
- `RingBuffers.RingBuffer.Read` requires that the output array is not the
  buffer's own storage. The C code never passes its own storage, and aliasing
  between them is not modelled.
- `RingBuffers.RingBuffer.constructor` models the uninitialised
  `RingBuffer buffer;` as a zeroed, storage-less buffer. The C struct's
  fields are indeterminate until `ring_buffer_init`.
- `WrapperDemo.Run` does not model the reclamation of resources on its
  error paths (`fclose`, `rnnoise_destroy`, model freeing) or the usage
  message.
