# GOYO active noise control and device backend, in Dafny

GOYO cancels noise in a room. A reference signal is played, and an
adaptive FIR filter learns the anti-noise from an error microphone
(filtered-x LMS, `FxLMSANC`). Two harness scripts drive the
controller. A small recorder cuts microphone audio into overlapping
windows. A FastAPI backend stores users, their ANC preferences and
their paired microphones and speakers.

This project models and proves:

- **The controller** (`ANC/fxlms_controller.py`). It is a class
  `Fxlms.Controller` whose weight and history buffers are arrays that
  its methods update in place. Each method is proved against pure
  functions over sequences:
  - `ReferenceBlock.NextBlock`: how the reference is cut into blocks;
  - `AdaptiveFilter.Synthesize` and `AdaptiveFilter.UpdateWeights`:
    the anti-noise synthesis and the LMS update;
  - `ControlLoop.RunFrom`: the whole `run` loop.

  The properties of those functions are proved as lemmas.
- **WAV decoding** (`read_mono_wav`, in `Pcm`). Also the least-squares
  system that `measure_secondary_path` builds (`SecondaryPathFit`).
- **The two harness scripts** (`AncTest`, `ReferenceThenAnc`, with the
  shared pieces in `Harness`): configuration checks, loading the saved
  path, the pass-through playback loops, and the keyword arguments
  handed to the controller.
- **The recorder** `local_client/mic_stream.py` (`MicStream`).
- **The backend services** for devices, profiles and authentication
  (`DeviceService`, `Users`, `ProfileService`, `Auth`).
  - Every `.first()` query is one first-match search over the rows in
    key order (`Search.First`).
  - Each service is a pure transition function from the table before
    to the result and the table after. Lemmas about these functions
    state the invariants and the round trips.
  - A method over a database object (`DeviceDb`, `UserDb`) performs
    the same change in place and is proved equal to that function.

The audio devices, the clock and the user's Ctrl+C are inputs:

- the error blocks the microphone returns;
- the number of iterations a loop gets before the time limit or the
  interrupt;
- the chunks the recorder reads.

What the loops write to the speakers is their result.

Where the comments or the documentation disagree with the code, the
model follows the code:

- The reference history holds `filter_length` taps, not
  `filter_length + block_size - 1`.
- A one-dimensional but empty secondary path is accepted by the
  constructor. Synthesis then fails on it, so the loop lemmas require
  at least one tap (`ControlLoop.Runnable`).
- A looping reference wraps in the middle of a block. The block's
  tail is filled from the start of the signal, not padded.
- `split_reference_channels` is not a parameter of the constructor.
  Both harness scripts pass it, so construction always fails
  (`Harness.RunAncNeverBindsConstructor`).
- `validate_config` accepts only the modes `"a"` and `"r"`. The names
  `"anc"` and `"reference"` that its message and the comment suggest
  are refused.
- The recorder's window is 50 chunks (5 s) and its stride 25 chunks.
  The comments say 20 and 10 chunks, or 2 s.

## Model

| member | source | states |
|---|---|---|
| Signal.Slice | ANC/fxlms_controller.py:230 | a slice with a start before the end is the sub-sequence up to the clamped end; otherwise it is empty |
| Signal.PadTo | ANC/fxlms_controller.py:240 | padding keeps the block as the prefix and fills up to the requested length with zeros |
| Search.First | goyo-backend/app/services/device_service.py:93 | the position of the first element that matches, with no match before it; `None` exactly when nothing matches |
| Pcm.Int16RoundTrip | ANC/fxlms_controller.py:57-58 | decoding the little-endian bytes of any int16 gives it back |
| Pcm.Int16BytesRoundTrip | ANC/fxlms_controller.py:57-58 | encoding the int16 read from any two bytes gives those bytes back |
| Pcm.Int32RoundTrip | ANC/fxlms_controller.py:59-60 | decoding the little-endian bytes of any int32 gives it back |
| Pcm.DecodeInt16s | ANC/fxlms_controller.py:58 | one int16 per byte pair: sample `i` is read from bytes `2i` and `2i+1` |
| Pcm.DecodeInt32s | ANC/fxlms_controller.py:60 | one int32 per four bytes: sample `i` is read from bytes `4i` to `4i+3` |
| Pcm.Int16sRoundTrip | ANC/fxlms_controller.py:58 | decoding an encoded int16 buffer gives the samples back |
| Pcm.Int32sRoundTrip | ANC/fxlms_controller.py:60 | decoding an encoded int32 buffer gives the samples back |
| Pcm.DecodeInt16sAppend | local_client/mic_stream.py:41 | decoding joined whole-sample buffers is joining their decodings |
| Pcm.Int16ToSample | ANC/fxlms_controller.py:58 | a scaled int16 lies in [-1, 1) |
| Pcm.Int32ToSample | ANC/fxlms_controller.py:60 | a scaled int32 lies in [-1, 1) |
| Pcm.Int16sToSamples | ANC/fxlms_controller.py:58 | every int16 is scaled on its own, in order |
| Pcm.Int32sToSamples | ANC/fxlms_controller.py:60 | every int32 is scaled by 2^31 on its own, in order |
| Pcm.Channel0 | ANC/fxlms_controller.py:64-65 | output `i` is the first sample of frame `i`, for `len / channels` frames |
| Pcm.DecodeSamples | ANC/fxlms_controller.py:57-62 | widths other than 2 and 4 bytes fail, naming the width in bits; a buffer of partial samples fails; otherwise one sample per item: for width 2 the little-endian int16 of bytes `2i`, `2i+1` over 32768, for width 4 the little-endian int32 of bytes `4i`..`4i+3` over 2^31, all in [-1, 1) |
| Pcm.ReadMonoWav | ANC/fxlms_controller.py:45-67 | a missing file fails; success carries the file's rate and `bytes / width / channels` samples in [-1, 1); a mono file gives its decoded samples, and a multichannel file the decoded sample of channel 0 of every frame, whatever the width |
| Pcm.ReadMonoWavSucceeds | ANC/fxlms_controller.py:45-67 | a file is read exactly when its width is supported, its bytes hold whole samples and, with several channels, its samples whole frames |
| Pcm.MonoInt16RoundTrip | ANC/fxlms_controller.py:45-67 | a mono 16-bit file of int16 samples reads back as those samples divided by 32768 |
| Pcm.MonoInt32RoundTrip | ANC/fxlms_controller.py:45-67 | a mono 32-bit file of int32 samples reads back as those samples divided by 2^31 |
| Pcm.MultichannelKeepsChannel0 | ANC/fxlms_controller.py:64-65 | a multichannel 16-bit file decodes exactly when it holds whole frames; sample `i` then comes from channel 0 of frame `i` |
| ReferenceBlock.NextBlock | ANC/fxlms_controller.py:220-245 | every block has `block_size` samples, and the index moves as `NextIndex` says |
| ReferenceBlock.NextIndex | ANC/fxlms_controller.py:222-244 | without looping the index never moves back and, from inside the signal, stops at the end; with looping and a block no longer than the signal it stays within the signal |
| ReferenceBlock.NextBlockCases | ANC/fxlms_controller.py:222-244 | a block that fits is the slice, and the index moves by one block; past the end without looping: silence, index unchanged; with looping: restart at 0 as a non-looping read |
| ReferenceBlock.ShortTailPadded | ANC/fxlms_controller.py:239-242 | without looping a short tail is zero-padded, the index jumps to the end, and the next fetch is silence |
| ReferenceBlock.ShortTailWraps | ANC/fxlms_controller.py:232-238 | with looping a short tail is followed by the start of the signal, and the index becomes the number of samples taken from the start |
| ReferenceBlock.LoopIsCyclic | ANC/fxlms_controller.py:220-245 | with looping and a block no longer than the signal, each sample is the next one of the cyclically repeated signal, with none skipped or repeated |
| AdaptiveFilter.Shift | ANC/fxlms_controller.py:349-350 | the new sample enters at 0, the others move back by one, and the length stays |
| AdaptiveFilter.WindowStep | ANC/fxlms_controller.py:349-350 | shifting one more sample in gives the register of the longer input |
| AdaptiveFilter.SampleStep | ANC/fxlms_controller.py:345-360 | the sample becomes the newest entry of the reference and secondary histories, and the newest filtered-reference entry is the path applied to the new secondary history; the shapes are kept |
| AdaptiveFilter.Synthesize | ANC/fxlms_controller.py:328-365 | one anti-noise sample and one filtered-reference vector of `filter_length` taps per input sample; the history shapes are kept |
| AdaptiveFilter.SynthesizeSnoc | ANC/fxlms_controller.py:345-363 | one more input sample extends the synthesis by one sample step |
| AdaptiveFilter.SynthesizePrefix | ANC/fxlms_controller.py:328-365 | the output for a prefix of the block does not depend on later samples |
| AdaptiveFilter.HistoriesSlide | ANC/fxlms_controller.py:349-357 | after a block, the reference and secondary histories hold its samples newest first, then the oldest part of the old history |
| AdaptiveFilter.AntiNoiseIsFirOutput | ANC/fxlms_controller.py:353 | anti-noise sample `i` is `sum_k w[k] x[i-k]`, reaching into the history before the block |
| AdaptiveFilter.AntiNoiseIsFir | ANC/fxlms_controller.py:345-353 | every anti-noise sample of a block is the FIR output of the weights over its window |
| AdaptiveFilter.Filtered | ANC/fxlms_controller.py:355-357 | one filtered-reference value per input sample: the path applied to the secondary history after that sample |
| AdaptiveFilter.FxHistorySlides | ANC/fxlms_controller.py:355-360 | after a block the filtered-reference history holds the path-filtered samples newest first, then the oldest part of the old history |
| AdaptiveFilter.ZeroWeightsSilent | ANC/fxlms_controller.py:353 | zero weights give a silent block |
| AdaptiveFilter.ComputeStep | ANC/fxlms_controller.py:247-252 | the base step without normalisation; with it, the step times (energy + EPSILON) is the base step, and the divisor is positive |
| AdaptiveFilter.NormalizedCorrectionBounded | ANC/fxlms_controller.py:247-252 | a normalised update changes the filter's response to `fx` by at most `step_size * abs(e)` |
| AdaptiveFilter.LmsStepMoves | ANC/fxlms_controller.py:369-371 | one sample update adds the step times the error times `fx` |
| AdaptiveFilter.LmsStep | ANC/fxlms_controller.py:369-371 | weight `k` moves by the step times the error times `fx[k]`, and the length is kept |
| AdaptiveFilter.UpdatePrefix | ANC/fxlms_controller.py:369-371 | the first `n` sample updates keep the number of weights |
| AdaptiveFilter.UpdateWeights | ANC/fxlms_controller.py:367-371 | pairs up to the shorter of the errors and the vectors (`zip`) are applied; the length is kept |
| AdaptiveFilter.ZeroErrorKeepsWeights | ANC/fxlms_controller.py:367-371 | a silent error block leaves the weights unchanged |
| AdaptiveFilter.UpdateInOrder | ANC/fxlms_controller.py:369 | the update is sequential: a prefix is applied, then the rest starts from the weights the prefix left |
| ControlLoop.Reset | ANC/fxlms_controller.py:158-165 | zero weights and histories of the configured shapes, both counters at 0 |
| ControlLoop.Step | ANC/fxlms_controller.py:283-321 | one iteration fetches the next block as `NextBlock` says; the anti-noise played is the FIR output of the old weights over the block; the reference, secondary and filtered-reference histories slide over the block and its path-filtered values; the new weights are the LMS update of the old ones by the error block over the filtered-reference snapshots; the frame count goes up by one and the shapes are kept |
| ControlLoop.StopAfter | ANC/fxlms_controller.py:284-288 | a looping session never raises the stop flag; once it is raised, a further non-looping fetch would not move the index |
| ControlLoop.Fetches | ANC/fxlms_controller.py:279-288 | the loop runs at most as many blocks as were captured, and at least one when any was captured |
| ControlLoop.RunFrom | ANC/fxlms_controller.py:279-321 | the frame counter ends at the number of frames processed, which is the count `Fetches` gives; every frame has `block_size` samples |
| ControlLoop.Advance | ANC/fxlms_controller.py:279-321 | the same as `RunFrom`, when an error block is available |
| ControlLoop.ContinueFromNothing | ANC/fxlms_controller.py:279 | a loop that has processed nothing yet is the whole run |
| ControlLoop.ContinueStep | ANC/fxlms_controller.py:279-321 | one iteration joins its frame to those done, then stops on the flag or continues from the new state |
| ControlLoop.LoopingProcessesEveryBlock | ANC/fxlms_controller.py:284-288 | with looping the stop flag is never raised: every captured block is processed |
| ControlLoop.NonLoopIndexStep | ANC/fxlms_controller.py:220-245 | without looping, after `f` blocks the index is `min(f * block_size, len)` |
| ControlLoop.NonLoopFetches | ANC/fxlms_controller.py:284-288 | without looping, the count of processed blocks stops at the first block that reaches the end |
| ControlLoop.NonLoopStopsAtEnd | ANC/fxlms_controller.py:284-288 | without looping, `run` processes the first `n` blocks with `n * block_size >= len`, and no earlier block reaches the end, unless the captured blocks run out first |
| ControlLoop.FirstBlockSilent | ANC/fxlms_controller.py:158-165 | the first block after a reset plays silence |
| ControlLoop.Clip | ANC/fxlms_controller.py:296 | the result lies in [-1, 1]; it equals `x` inside the range and the nearer bound outside it |
| ControlLoop.Mix | ANC/fxlms_controller.py:292-300 | with a dedicated reference speaker, the reference goes there and the anti-noise is unclipped; otherwise the reference is mixed in (or not), and the output is clipped to [-1, 1] |
| ControlLoop.SumSquares | ANC/fxlms_controller.py:313 | the energy is never negative |
| ControlLoop.SilentHasNoEnergy | ANC/fxlms_controller.py:313 | a silent block has zero energy |
| ControlLoop.MeanSquare | ANC/fxlms_controller.py:313 | the mean square is never negative |
| ControlLoop.SilentBlockReportsZero | ANC/fxlms_controller.py:313 | a silent error block reports zero error power |
| Fxlms.DefaultSecondaryPath | ANC/fxlms_controller.py:136-139 | a unit impulse followed by seven zeros |
| Fxlms.EffectiveRate | ANC/fxlms_controller.py:123 | a missing or zero request means the file's rate; otherwise the requested rate |
| Fxlms.Configure | ANC/fxlms_controller.py:107-156 | accepted exactly when the file reads, the rate matches, the path is 1-D and the filter length is not negative; each error is returned exactly when the earlier checks pass and its own fails, and names its cause (the file error, the two rates, the negative length); success carries the arguments and the path (the default one when none is given) |
| Fxlms.ShiftIn | ANC/fxlms_controller.py:349-350 | the array afterwards is `Shift` of the array before |
| Fxlms.ZeroArray | ANC/fxlms_controller.py:160 | a fresh array of zeros |
| Fxlms.AddScaledRow | ANC/fxlms_controller.py:371 | the weights afterwards are the old weights plus `c` times the row |
| Fxlms.CopyRow | ANC/fxlms_controller.py:363 | the row is the vector, and every other row is unchanged |
| Fxlms.ErrorBlocks | ANC/fxlms_controller.py:305-308 | each captured read, scaled from int16 |
| Fxlms.Controller.constructor | ANC/fxlms_controller.py:107-156 | the settings are stored and the state is the reset state |
| Fxlms.Controller.ResetState | ANC/fxlms_controller.py:158-165 | the state is `Reset` of the settings, with four fresh distinct buffers |
| Fxlms.Controller.Stop | ANC/fxlms_controller.py:167-169 | raises the stop flag |
| Fxlms.Controller.NextReferenceBlock | ANC/fxlms_controller.py:220-245 | the block returned and the new index are `NextBlock` of the old index |
| Fxlms.Controller.SynthesizeSample | ANC/fxlms_controller.py:346-363 | the histories take one `SampleStep`; slot `i` gets `w . x_hist`, and row `i` gets the filtered-reference history |
| Fxlms.Controller.SynthesizeBlock | ANC/fxlms_controller.py:328-365 | the histories, the anti-noise and the rows of `fx_vectors` are `Synthesize` of the old histories |
| Fxlms.Controller.SynthesizeInto | ANC/fxlms_controller.py:342-363 | the loop over the block writes what `Synthesize` computes |
| Fxlms.Controller.SynthesizeNext | ANC/fxlms_controller.py:345-363 | one pass of the loop extends the synthesis of the prefix by sample `i` |
| Fxlms.Controller.UpdateWeights | ANC/fxlms_controller.py:367-371 | the weights afterwards are `AdaptiveFilter.UpdateWeights` of the old weights |
| Fxlms.Controller.ProcessBlock | ANC/fxlms_controller.py:283-310 | fetch, synthesis and update together are one `Step` of the loop function |
| Fxlms.Controller.RunIteration | ANC/fxlms_controller.py:280-321 | one loop body: the stop flag is raised exactly at a non-looping end; the output is `Mix` of the frame; the metrics report the frame index and the error power; the session matches the loop function |
| Fxlms.Controller.Run | ANC/fxlms_controller.py:254-321 | the final state is that of `RunFrom` from a reset; each output block is `Mix` of its frame; metrics `i` is frame `i`'s error power and step size when a callback is given, and there are none otherwise |
| Fxlms.Controller.RunBlocks | ANC/fxlms_controller.py:279-321 | the loop from the reset state produces the session, outputs and metrics that `Run` promises |
| SecondaryPathFit.FillColumn | ANC/fxlms_controller.py:416 | column `i` becomes `excitation[r + i]` for every row, and the other columns are unchanged |
| SecondaryPathFit.BuildSystem | ANC/fxlms_controller.py:413-417 | fails exactly when there are fewer samples than taps; otherwise `X[r, i] = excitation[r + i]` with `n - fir_length` rows, and `y = recorded[fir_length:]` |
| SecondaryPathFit.DesignRowIsReversedHistory | ANC/fxlms_controller.py:416 | row `r` as built is the controller's history before the target, reversed |
| SecondaryPathFit.DesignSystemMissesIdentityPath | ANC/fxlms_controller.py:413-417 | the identity path reproduces the recording, yet it does not satisfy row 0 of the system as built |
| SecondaryPathFit.CausalRow | ANC/fxlms_controller.py:413-417 | row `r` in the controller's tap order has `fir_length` taps |
| SecondaryPathFit.CausalRowIsHistory | ANC/fxlms_controller.py:356-358 | the causal row is the controller's `sec_history` at the target sample |
| SecondaryPathFit.CausalSystemSolvedByPath | ANC/fxlms_controller.py:413-419 | a recording made through a path solves every row of the causal system with that path |
| SecondaryPathFit.BuildCausalSystem | ANC/fxlms_controller.py:413-417 | the same failure rule as `BuildSystem`; every row is the causal row, and the target is `recorded[fir_length:]` |
| SecondaryPathFit.FillCausalRow | ANC/fxlms_controller.py:416 | the row becomes the causal row, and the other rows are unchanged |
| Harness.Segment | ANC/ANC_test.py:128-132 | the `m` samples from `a` on, zeros past the end |
| Harness.SegmentJoin | ANC/ANC_test.py:128-144 | adjacent segments join into one |
| Harness.PaddedSliceIsSegment | ANC/ANC_test.py:128-132 | a non-empty slice, padded, is the segment at that index |
| Harness.Interleaved | ANC/ANC_test.py:135-136 | the stereo frame is twice the block's length |
| Harness.InterleavedChannels | ANC/ANC_test.py:135-137 | the left channel of the stereo frame is the block, and the right channel is silence |
| Harness.WriteStereo | ANC/ANC_test.py:135-136 | the buffer filled in place is the interleaved frame |
| Harness.ControlFrames | ANC/ANC_test.py:134-139 | frame `k` is the stereo frame of block `k` when splitting, the block itself otherwise |
| Harness.Keys | ANC/ANC_test.py:69-82 | the keyword names, in order |
| Harness.RunAncKwargsShape | ANC/ANC_test.py:69-82 | the reference stays audible and the split flag is always passed; `block_size` and `filter_length` are passed exactly when configured, with their values |
| Harness.RunAncKwargs | ANC/ANC_test.py:69-82 | the keyword arguments always include `split_reference_channels` with the configured flag |
| Harness.FirstUndeclared | ANC/fxlms_controller.py:107-121 | `None` exactly when every keyword is declared; otherwise an undeclared keyword that is present |
| Harness.BindConstructor | ANC/ANC_test.py:84 | the call binds exactly when every keyword is a declared parameter |
| Harness.FirstUndeclaredSkips | ANC/fxlms_controller.py:107-121 | a prefix of declared keywords does not change the first undeclared one |
| Harness.RunAncNeverBindsConstructor | ANC/ANC_test.py:69-84 | with any configuration, the call fails on `split_reference_channels` |
| AncTest.ValidateConfig | ANC/ANC_test.py:51-63 | passes exactly when every condition holds; each of the six errors is raised exactly when the earlier checks pass and its own fails; a refused mode is reported as configured |
| AncTest.LongModeNamesRejected | ANC/ANC_test.py:52-53 | the modes "anc" and "reference" are refused |
| AncTest.LoadSecondaryPath | ANC/ANC_test.py:42-48 | a missing file fails; otherwise it succeeds exactly for a 1-D array, and returns its taps |
| AncTest.RunAnc | ANC/ANC_test.py:66-84 | always fails: on the path when it does not load, otherwise on the constructor call |
| AncTest.BlockLen | ANC/ANC_test.py:99 | the configured block size, or the controller default when none is set; positive for a configuration that passed validation |
| AncTest.ReferenceOnly | ANC/ANC_test.py:121-149 | at most one block per iteration allowed, each of `block_len` samples |
| AncTest.NonLoopPlaysSignalOnce | ANC/ANC_test.py:121-149 | without looping, what is played is the signal from the index, once and in order, padded only at the end |
| AncTest.NonLoopStopsAtSignalEnd | ANC/ANC_test.py:144-149 | without looping, playback ends early only when the signal is exhausted, and never plays a block wholly past the end |
| AncTest.LoopingNeverStops | ANC/ANC_test.py:144-147 | with looping and a non-empty signal, every allowed iteration plays a block |
| AncTest.ReferenceOnlyStep | ANC/ANC_test.py:128-149 | one iteration plays the padded block, then continues from the next index, from 0, or not at all |
| AncTest.ControlFramesSnoc | ANC/ANC_test.py:134-139 | one more block adds its control frame at the end |
| AncTest.MakeControlFrame | ANC/ANC_test.py:134-139 | the stereo frame when splitting, the block otherwise |
| AncTest.ReferenceStep | ANC/ANC_test.py:128-149 | an empty slice plays nothing and ends playback; otherwise the played block and the next index are those of `ReferenceOnly` |
| AncTest.PlayReferenceOnly | ANC/ANC_test.py:96-156 | the control stream receives the control frames of `ReferenceOnly` from 0, looping exactly when no duration is set; the reference stream receives the blocks when a device is set |
| ReferenceThenAnc.Preview | ANC/reference_then_anc.py:64-87 | at most one block per iteration, each of `block_len` samples |
| ReferenceThenAnc.EmptySignalPlaysNothing | ANC/reference_then_anc.py:68-71 | an empty reference spins through the preview without writing anything |
| ReferenceThenAnc.PreviewIsLoopingPassThrough | ANC/reference_then_anc.py:64-87 | from an index inside the signal, the preview plays what the looping pass-through of ANC_test.py plays |
| ReferenceThenAnc.PreviewFillsItsTime | ANC/reference_then_anc.py:67-87 | a non-empty signal plays one block in every iteration of the preview |
| ReferenceThenAnc.PreviewStep | ANC/reference_then_anc.py:68-87 | one iteration: an empty slice restarts at 0 without playing; otherwise the block and the next index are those of `Preview` |
| ReferenceThenAnc.PlayReferencePreview | ANC/reference_then_anc.py:40-94 | the control stream receives the control frames of `Preview`, and the reference stream receives its blocks when a device is set |
| ReferenceThenAnc.SessionCall | ANC/reference_then_anc.py:121 | the session loops exactly when it has no duration, and the duration is passed through |
| ReferenceThenAnc.RunAnc | ANC/reference_then_anc.py:97-121 | the constructor call always fails on `split_reference_channels`, so `run` is never reached |
| MicStream.WindowConstants | local_client/mic_stream.py:12-20 | windows of 50 chunks advancing by 25, and a window is 5 s of samples |
| MicStream.DequeAppend | local_client/mic_stream.py:30-36 | the newest `maxlen` items of the old contents plus `x`; nothing is evicted while there is room |
| MicStream.Frames | local_client/mic_stream.py:41-42 | `CHUNK` samples per chunk |
| MicStream.FramesAppend | local_client/mic_stream.py:41-42 | the samples of joined chunks are the joined samples |
| MicStream.WindowAt | local_client/mic_stream.py:39-42 | a window holds `WINDOW_CHUNKS * CHUNK` samples |
| MicStream.ConsecutiveWindowsOverlap | local_client/mic_stream.py:52-54 | the second half of each window is the first half of the next |
| MicStream.Slide | local_client/mic_stream.py:53-54 | the popleft loop drops exactly the oldest `STEP_CHUNKS` chunks |
| MicStream.ReadChunk | local_client/mic_stream.py:35-54 | one read keeps the invariant: the saved windows are the complete ones, and the queue holds the chunks after the last stride, fewer than a window |
| MicStream.Record | local_client/mic_stream.py:29-54 | window `k` is the chunks from `25k` to `25k + 50`; every complete window is saved and no other; what is left in the queue is the chunks after the last stride, fewer than a window |
| DeviceService.Find | goyo-backend/app/services/device_service.py:57-59 | the first row with the id; `None` exactly when no row has it |
| DeviceService.FindUnique | goyo-backend/app/models/device.py:10 | with unique ids, the row found is the only row carrying the id |
| DeviceService.Pairing | goyo-backend/app/services/device_service.py:55-88 | fails only on another owner's device, and the table is then unchanged; success returns the id and the owner; a row is added exactly when no row carries the id |
| DeviceService.PairingKnownDevice | goyo-backend/app/services/device_service.py:61-64 | a known device is refused for another user and returned as it is for its owner; the table is unchanged |
| DeviceService.PairingNewDevice | goyo-backend/app/services/device_service.py:66-77 | a new device is stored connected and uncalibrated under the next key, with the request's fields |
| DeviceService.PairingIdempotent | goyo-backend/app/services/device_service.py:55-88 | pairing twice is pairing once |
| DeviceService.PairingKeepsValid | goyo-backend/app/services/device_service.py:66-77 | pairing keeps device ids unique and keys increasing |
| DeviceService.RoleAssignment | goyo-backend/app/services/device_service.py:91-104 | "not found" exactly when no row carries the id; "invalid role" exactly when it exists and the role is neither microphone role; success changes only that row's type |
| DeviceService.IsRole | goyo-backend/app/services/device_service.py:97 | only microphone types are accepted as roles |
| DeviceService.RoleAssignmentKeepsValid | goyo-backend/app/services/device_service.py:100 | assigning a role keeps the table valid |
| DeviceService.UserDevices | goyo-backend/app/services/device_service.py:107-109 | a device is listed exactly when it is in the table and belongs to the user |
| DeviceService.FirstOfType | goyo-backend/app/services/device_service.py:116-118 | `None` exactly when no device has the type; otherwise the first device that does |
| DeviceService.NameOf | goyo-backend/app/services/device_service.py:121-123 | the device's name when there is a device, `None` otherwise |
| DeviceService.FirstOwnedName | goyo-backend/app/services/device_service.py:114-123 | `None` exactly when the user owns no device of the type; otherwise the name of the first such row, with none of the user's rows of that type before it |
| DeviceService.FirstOfUserDevices | goyo-backend/app/services/device_service.py:114-123 | the first device of a type among the user's devices is the first row of the table that is the user's and has that type |
| DeviceService.MicrophoneSetup | goyo-backend/app/services/device_service.py:112-125 | each slot holds the name of the first row, in table order, that is the user's and has that type, or `None` when there is none; ready exactly when all three are present |
| DeviceService.Calibrating | goyo-backend/app/services/device_service.py:146-169 | fails exactly when either id is missing, and the table is then unchanged; success writes the fixed calibration to both rows and changes nothing else |
| DeviceService.CalibrationAt | goyo-backend/app/services/device_service.py:155-160 | the fixed delay, frequency response and spatial transfer function, stamped with the time of the call |
| DeviceService.CalibratingKeepsValid | goyo-backend/app/services/device_service.py:162-167 | calibration keeps the table valid |
| DeviceService.Removal | goyo-backend/app/services/device_service.py:172-180 | fails exactly when no row carries the id; otherwise that row is deleted |
| DeviceService.RemovalDeletesExactly | goyo-backend/app/services/device_service.py:178 | after removal, a device is in the table exactly when it was before and has a different id |
| DeviceService.RemovalKeepsValid | goyo-backend/app/services/device_service.py:178 | removal keeps the table valid |
| DeviceService.DeviceDb.constructor | goyo-backend/app/models/device.py:6-24 | an empty, valid table |
| DeviceService.PairDevice | goyo-backend/app/services/device_service.py:55-88 | the result and the new table are those of `Pairing` |
| DeviceService.AssignMicrophoneRole | goyo-backend/app/services/device_service.py:91-104 | the result and the new table are those of `RoleAssignment` |
| DeviceService.CalibrateDualMicrophones | goyo-backend/app/services/device_service.py:146-169 | the result and the new table are those of `Calibrating` |
| DeviceService.RemoveDevice | goyo-backend/app/services/device_service.py:172-180 | the result and the new table are those of `Removal` |
| Users.FindById | goyo-backend/app/services/profile_service.py:10 | the first row with the key; `None` exactly when no row has it |
| Users.FindByEmail | goyo-backend/app/api/auth.py:19 | the first row with the email; `None` exactly when no row has it |
| Users.FindByToken | goyo-backend/app/api/auth.py:80 | the first row holding the token; `None` exactly when no row holds it |
| Users.UserDb.constructor | goyo-backend/app/models/user.py:5-21 | an empty table |
| ProfileService.UserProfile | goyo-backend/app/services/profile_service.py:8-13 | "not found" exactly when no row has the key; otherwise a row of the table with that key |
| ProfileService.Set | goyo-backend/app/services/profile_service.py:24 | the column takes the value, and every other column keeps its value |
| ProfileService.ApplyItem | goyo-backend/app/services/profile_service.py:22-24 | the column the key names takes the value when it is not `None` and has the column's type; every other column keeps its value |
| ProfileService.ApplyItemsSnoc | goyo-backend/app/services/profile_service.py:22-24 | the items are applied in order, one at a time |
| ProfileService.UpdateLastWriteWins | goyo-backend/app/services/profile_service.py:22-24 | each column ends with the last value written to it; a column no item writes keeps its value |
| ProfileService.Updating | goyo-backend/app/services/profile_service.py:16-28 | "not found" exactly when no row has the key; otherwise only that row changes, each column to its last written value |
| ProfileService.ApplyUpdate | goyo-backend/app/services/profile_service.py:22-24 | the loop's user has each column at its last written value, or its old one |
| ProfileService.UpdateProfile | goyo-backend/app/services/profile_service.py:16-28 | the result and the new table are those of `Updating` |
| ProfileService.AncSettingsOf | goyo-backend/app/services/profile_service.py:31-44 | fails exactly when the profile lookup fails; otherwise the stored switch and level |
| ProfileService.Toggling | goyo-backend/app/services/profile_service.py:47-63 | "not found" exactly when no row has the key; otherwise only that row's switch changes |
| ProfileService.ToggleKeepsLevel | goyo-backend/app/services/profile_service.py:53 | after a toggle, the settings show the new switch and the old level |
| ProfileService.ToggleAnc | goyo-backend/app/services/profile_service.py:47-63 | the result and the new table are those of `Toggling` |
| ProfileService.SettingLevel | goyo-backend/app/services/profile_service.py:66-86 | a level outside 0..100 is refused before the lookup; then "not found" exactly when no row has the key; success changes only that row's level |
| ProfileService.SetLevelKeepsSwitch | goyo-backend/app/services/profile_service.py:68-75 | a stored level lies in 0..100, and the switch does not move |
| ProfileService.SetSuppressionLevel | goyo-backend/app/services/profile_service.py:66-86 | the result and the new table are those of `SettingLevel` |
| Auth.Registration | goyo-backend/app/api/auth.py:16-50 | "registered" exactly when the email exists; "too short" exactly when it does not and the password is under 8 characters; a new email with a long enough password always succeeds, appending an inactive, unverified user with the hashed password and the token |
| Auth.NewUser | goyo-backend/app/api/auth.py:36-41 | the stored row has the given key, email, hash, name and token, is inactive and unverified, with ANC off at the default level |
| Auth.RegistrationKeepsEmailsUnique | goyo-backend/app/api/auth.py:19-24 | signing up keeps emails unique |
| Auth.Signup | goyo-backend/app/api/auth.py:16-50 | the result and the new table are those of `Registration` |
| Auth.Login | goyo-backend/app/api/auth.py:52-76 | "invalid credentials" exactly when the email is unknown or the password does not verify; "not verified" exactly when the password verifies on an unverified account; success exactly when it verifies on a verified account, with bearer tokens for its email |
| Auth.Verification | goyo-backend/app/api/auth.py:78-92 | fails exactly when no user holds the token; otherwise the first holder is verified and activated, and loses the token |
| Auth.TokenVerifiesOnce | goyo-backend/app/api/auth.py:87-89 | a token held by one user verifies once; a second use is refused |
| Auth.VerifyEmail | goyo-backend/app/api/auth.py:78-92 | the result and the new table are those of `Verification` |
| Auth.SignupVerifyLogin | goyo-backend/app/api/auth.py:16-92 | a new account cannot log in until it is verified with its token, then it can, and the token is spent |

## Left out

- Audio devices (PyAudio streams, device discovery) are not modelled. What a stream returns is an input, and what it is given is a result.
- The wall clock, `max_duration`, `REFERENCE_PREVIEW_SECONDS`, Ctrl+C and a `stop()` from another thread are not modelled. Each loop instead gets a number of iterations or a sequence of captured reads.
- float32 rounding is not modelled: samples, weights and steps are exact reals.
- `Fxlms.Controller.Run` reports the mean square of the error block, not its square root, because square roots of reals are not available. An empty block reports 0, where `np.mean([])` gives NaN.
- `Fxlms.Controller.Run` requires at least one adaptive tap and one path coefficient. With none, the source fails with an IndexError inside `_synthesize_block`; that failure is not modelled.
- `measure_secondary_path` is modelled from the system it builds onward. Three parts are not modelled: the random excitation, the measurement loop over the streams, and the least-squares solve (`np.linalg.lstsq`).
- Redis status and session writes, `db.commit` failures and the `created_at` / `updated_at` timestamps are not modelled. The calibration time is an input string.
- `DeviceService.Calibrating` stores the calibration as a value, not as its JSON text.
- ProfileService.ApplyItem: covers only keys that name a column. The source's `hasattr` also accepts other attributes of the object, such as `updated_at` or relationship names, and `setattr` would write a value of any type. The model writes only values of the column's type.
- Password hashing, password checking, token generation and JWT creation live in `goyo-backend/app/utils/security.py`, which is not part of this model. They are function parameters, and the verification token is an argument.
- `discover_usb_microphones`, `discover_wifi_speakers` and `get_device_status` are not modelled. They return fixed mock data or read Redis, and they change nothing.
- `ReferenceThenAnc.Preview` takes the block length as a natural number. A negative `BLOCK_SIZE` would make numpy slice from the end, and that case is not modelled.
- The FastAPI routers, schemas and HTTP status codes are not modelled. Each error is a constructor of an error datatype, with the message as a comment.

## Findings

| source | as written | input that shows it | evidently intended | confidence | as-written member | corrected member |
|---|---|---|---|---|---|---|
| ANC/fxlms_controller.py:413-417 | `X[r, i] = excitation[r + i]` pairs tap `i` with the sample `fir_length - i` steps before the target `recorded[fir_length + r]`. The solved path comes out reversed, with no tap for the current sample, while `_synthesize_block` applies tap `k` to the sample `k` steps back. | identity path `[1, 0]` with the impulse `[1, 0, 0, 0]`: the recording equals the excitation, yet row 0 asks for `1.0` where `0.0` was recorded | row `r` holds the controller's history at the target, `excitation[r + fir_length - k]` for tap `k`, so that a recording made through a path is solved by that path | medium, not executed | SecondaryPathFit.DesignSystemMissesIdentityPath | SecondaryPathFit.CausalSystemSolvedByPath |
