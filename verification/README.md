# RamkolFX, verified

A Dafny model of the hard parts of the RamkolFX audio daemon, with proofs. Files follow the
program's components.

- **Streaming convolver** (`Complexes`, `RealSums`, `Fourier`, `KissFft`, `OverlapSave`, `ConvolverQueue`,
  `PartitionedConvolver`, `ConvolverRuns`): overlap-save convolution with input and output queues, proved
  equal to the direct convolution sum. The transform is given by its defining sums over a primitive root
  of unity of modulus one; orthogonality, inversion and the convolution theorem are proved, for the half
  spectrum the code keeps. Samples are reals.
- **Filters of a voice** (`Convolution`, `FilterCascade`, `NearField`, `BinauralVoice`): tap products, delays, near-field
  shelves and their gains, and the stereo voice on two convolvers.
- **Sample queue** (`CircularIndex`, `RingBufferSteps`, `StereoAlignment`, `RingBuffer`, `StereoBridge`): the
  lock-free ring as a system of atomic steps, when it keeps stereo frames whole, the ring as its callers see it,
  and the two audio callbacks on top.
- **Crossfading slot** (`SlotProtocol`, `SlotAdoption`, `SlotCollection`, `Fades`, `CrossfadingSlot`, `SlotRefinement`, `NearFieldToggle`):
  the protocol between one audio thread and any number of control threads, the fade law, and the near-field
  toggle that obeys it too.
- **Control protocol** (`Lists`, `Wire`, `Protocol`, `StateResponses`, `ListResponses`, `WireLayout`, `ControlServer`):
  the binary codec, its bytes as documented, and the reassembly loop. Floats are 32-bit words, as the code copies bit patterns.
- **Equaliser** (`EqDesign`, `Biquad`, `EqResponse`, `EqTones`, `RingDown`, `CutAndBoost`, `Cascade`, `GraphicEq`,
  `HwEqStage`, `CurveTones`, `CurveChange`): coefficient design after the W3C Audio EQ Cookbook and its analog
  prototypes, Direct Form II Transposed sections, what they do to tones and how they ring, the ten-band cascade,
  its crossfading stage, in place, and how a new curve is taken over.
- **Settings file** (`Settings`, `DefaultValues`) and **ambisonic decoder** (`Ambisonics`).

What the stages share (block bound, interleaving) is in `DspStage`.

Where a class is modelled, its methods carry the state change and specification functions carry the
meaning; the lemmas are about those functions. Atomic operations are sequentially consistent steps.

## Where code and documentation differ

- `daemon/src/dsp/partitioned_convolver.hpp:26-30` promises any block size. The code drops unread input when
  the output fills first; the promise holds exactly for multiples of 128 (`RunLosslessIffAligned`).
- `daemon/src/dsp/crossfading_slot.hpp:29-38` promises no deallocation on the audio thread. With a
  positive crossfade length that holds exactly when every object pushed out of an uncleared slot is still in use
  elsewhere (`AudioNeverDestroysIff`); a collection between any two fade ends is enough (`CollectingBetweenFadesIsEnough`), and two
  counterexamples show a run without collection and one with length zero.
- The two callbacks count in frames, but the queue publishes single samples. Calls move whole frames exactly
  when none gives up having seen the other side in the middle of a frame (`AlignedIff`), which is always so for
  calls that do not overlap (`ApartIsAligned`). On the engine's queue of 96000 samples, as on any other, a
  whole-frame pop that overlaps a push can return half a frame (`OverlappingPopSplitsAFrame`); the division by two then drops its
  sample and the channels swap (`ChannelsSwapAfterASplit`). Push can do the same (`OverlappingPushSplitsAFrame`).
- Requests that carry a content application's name put no cap on it, so beyond 65535 bytes of payload the
  length field wraps; `RequestArrivesIff` gives the exact bounds.
- `common/include/ramkolfx/protocol.hpp:263-264` describes a shorter status layout than the codec uses; the
  model follows the codec.

## Model

| member | source | states |
|---|---|---|
| `ConvolverRuns.AlignedRunIsDirectConvolution` | daemon/src/dsp/partitioned_convolver.cpp:95-130 | For every filter and every sequence of calls whose sizes are multiples of 128, what the calls add to their outputs, laid end to end, is sample by sample the direct convolution sum over the whole stream: no latency, no seam at call boundaries. |
| `ConvolverRuns.RunEmitsDirectConvolution` | daemon/src/dsp/partitioned_convolver.cpp:95-130 | For calls of any sizes: what a run hands out is exactly the stretch of the direct convolution of the stream it took in that was due, in order and each sample once. |
| `ConvolverRuns.EmissionIsDue` | daemon/src/dsp/partitioned_convolver.cpp:102-108 | A single call's output stays the direct convolution of the stream however the stream grows afterwards. |
| `ConvolverRuns.RenderStream` | daemon/src/dsp/partitioned_convolver.cpp:32-130 | The loaded convolver, driven call by call, produces the run of the specification; for aligned calls its joined output equals the direct convolution of the joined input. |
| `ConvolverRuns.RenderRun` | daemon/src/dsp/partitioned_convolver.cpp:95-130 | From any valid state a row of calls on cleared buffers produces the specified run and leaves the convolver valid. |
| `PartitionedConvolver.Convolver.Load` | daemon/src/dsp/partitioned_convolver.cpp:32-65 | Loading leaves empty queues, an empty stream and the half spectrum of the padded taps, in freshly allocated buffers. |
| `PartitionedConvolver.Convolver.SlideWindow` | daemon/src/dsp/partitioned_convolver.cpp:71-73 | After sliding, the window is the last FftSize samples of the consumed stream, zeros before its start. |
| `PartitionedConvolver.Convolver.FilterWindow` | daemon/src/dsp/partitioned_convolver.cpp:75-80 | Forward transform, bin-wise product and inverse leave the inverse transform of the product of the two half spectra, for every sample. |
| `PartitionedConvolver.Convolver.TakeLastBlock` | daemon/src/dsp/partitioned_convolver.cpp:82-89 | The last 128 normalised samples become pending output: direct convolution at their stream positions. |
| `PartitionedConvolver.Convolver.RunOneBlock` | daemon/src/dsp/partitioned_convolver.cpp:67-93 | One block moves 128 waiting input samples to 128 finished output samples, each the direct convolution of the stream, and restores the queue invariant. |
| `PartitionedConvolver.Convolver.Drain` | daemon/src/dsp/partitioned_convolver.cpp:102-108 | Hands out finished samples in order, adding each exactly once, as many as there are and as fit, and touches nothing else of the output. |
| `PartitionedConvolver.Convolver.Append` | daemon/src/dsp/partitioned_convolver.cpp:116-118 | Takes one sample in behind those that wait. |
| `PartitionedConvolver.Convolver.Fill` | daemon/src/dsp/partitioned_convolver.cpp:114-119 | Appends input to the stream until a block is complete or the input is used up, never overwriting. |
| `PartitionedConvolver.Convolver.ProcessAccumulate` | daemon/src/dsp/partitioned_convolver.cpp:95-130 | One call of any size: how much it reads and fills follows from the queue lengths alone; it adds the direct convolution of all input taken in so far, and nothing beyond what it emits; it terminates. |
| `ConvolverQueue.CallRests` | daemon/src/dsp/partitioned_convolver.cpp:100-129 | Between calls no input waits while finished output remains. |
| `ConvolverQueue.LosslessIffAligned` | daemon/src/dsp/partitioned_convolver.cpp:109-127 | On empty queues a call reads all its input and fills all its output if and only if its size is a multiple of 128. |
| `ConvolverQueue.RunLosslessIffAligned` | daemon/src/dsp/partitioned_convolver.cpp:95-130 | A freshly loaded convolver serves a run of calls without losing or missing a sample if and only if every call size is a multiple of 128; this is the exact range of the header's any-size promise. |
| `ConvolverQueue.DropsInputIff` | daemon/src/dsp/partitioned_convolver.cpp:109-112 | From any state between calls, when a call leaves input unread, by frames, waiting and finished samples alone: the call is not empty, and waiting plus finished exceed what the last block it needs leaves over. |
| `ConvolverQueue.HundredFrameCallsLoseInput` | daemon/src/dsp/partitioned_convolver.hpp:26-30 | Counterexample to the any-size promise: two calls of 100 frames, of which the second drops 72 input samples. |
| `ConvolverQueue.FilledCall` | daemon/src/dsp/partitioned_convolver.cpp:109-112 | How a call ends whose output filled after a given number of blocks: what it read, what it emitted and what stays queued. |
| `ConvolverQueue.StarvedCall` | daemon/src/dsp/partitioned_convolver.cpp:120-127 | How a call ends that ran out of input: all input read, only the completed blocks emitted, the rest waiting. |
| `OverlapSave.LastBlockDoesNotWrap` | daemon/src/dsp/partitioned_convolver.cpp:34-39 | With FftSize at least taps + 127, the last 128 samples of the circular convolution of window and padded filter never wrap: they are the direct convolution. |
| `OverlapSave.BlockIsDirect` | daemon/src/dsp/partitioned_convolver.cpp:67-89 | Half-spectrum product, inverse and 1/FftSize scaling of one window give the direct convolution on the last 128 samples. |
| `OverlapSave.WindowSlides` | daemon/src/dsp/partitioned_convolver.cpp:71-73 | Dropping the oldest 128 samples and appending the new ones is the window one block later. |
| `Fourier.Orthogonality` | daemon/src/dsp/partitioned_convolver.cpp:43-44 | The transform's root of unity: its powers sum to the size at exponent 0 and to zero elsewhere. |
| `Fourier.Inversion` | daemon/src/dsp/partitioned_convolver.cpp:82-85 | Transforming forward and back multiplies every sample by FftSize, which is why the code scales by 1/FftSize. |
| `Fourier.ConvolutionTheorem` | daemon/src/dsp/partitioned_convolver.cpp:75-80 | The transform turns circular convolution into a bin-wise product. |
| `Fourier.HalfSpectrumDetermines` | daemon/src/dsp/partitioned_convolver.cpp:46-48 | The FftSize/2+1 bins the code keeps determine the full spectrum of a real signal. |
| `Fourier.SpectralProductIsCircular` | daemon/src/dsp/partitioned_convolver.cpp:76-80 | Multiplying half spectra with the code's complex product and transforming back is circular convolution times FftSize. |
| `KissFft.ForwardReal` | daemon/src/dsp/partitioned_convolver.cpp:64-75 | The library call, by its defining sums: bins 0 to size/2 of the transform of the signal. |
| `KissFft.InverseReal` | daemon/src/dsp/partitioned_convolver.cpp:80-84 | The library call, by its defining sums: the unnormalised inverse of the Hermitian extension. |
| `Convolution.Convolve` | daemon/src/dsp/near_field_filter.cpp:64-79 | The nested accumulation loops compute the polynomial product of the taps, empty if either vector is. |
| `Convolution.ProductIsCascade` | daemon/src/dsp/near_field_filter.cpp:64-79 | Filtering with a product of filters is filtering with one and then the other, for every stream. |
| `FilterCascade.ProductCommutes` | daemon/src/dsp/near_field_filter.cpp:64-79 | The order of the two tap vectors does not matter. |
| `FilterCascade.VoiceIsCascade` | daemon/src/dsp/binaural_voice.cpp:33-62 | A voice's combined filter renders, for every stream, what scaling, far-field filter, near-field filter and integer delay applied in turn would render. |
| `Convolution.DirectDelayed` | daemon/src/dsp/hrtf_filter.hpp:45-51 | Prepending zero taps delays the output by as many samples. |
| `Convolution.IntegerDelay` | daemon/src/dsp/hrtf_filter.hpp:47 | A reported delay is rounded to the nearest sample, halves upwards, and never negative. |
| `Convolution.BuildDelayedHrtfFilter` | daemon/src/dsp/hrtf_filter.hpp:45-51 | The zeroed vector with the taps copied in behind the delay is the delayed filter. |
| `Convolution.BuildBoostShelf` | daemon/src/dsp/near_field_filter.cpp:53-62 | Scaling the low-pass taps and adding one to the first gives the shelf. |
| `Convolution.ShelfResponse` | daemon/src/dsp/near_field_filter.cpp:50-52 | The shelf passes the signal through and adds the low-passed signal at gain minus one, for every stream. |
| `Convolution.UnityShelf` | daemon/src/dsp/near_field_filter.cpp:50-52 | At gain 1 the shelf is the exact identity. |
| `NearField.ComputeNearFieldCorrection` | daemon/src/dsp/near_field_filter.cpp:83-126 | Each ear gets the shelf of its own gain: near gain on the source's side, far gain on the other, both alike dead ahead or behind, for any azimuth and distance; delays stay zero. |
| `NearField.NearEarGetsMore` | daemon/src/dsp/near_field_filter.cpp:87-126 | Closer than the reference distance neither ear is attenuated and the ear on the source's side is boosted at least as much as the other, for every azimuth. |
| `NearField.ProximityGains` | daemon/src/dsp/near_field_filter.cpp:85-92 | Inside the reference distance 1 <= far gain <= near gain, outside it near gain <= far gain <= 1. |
| `NearField.GainsFollowTheSphere` | daemon/src/dsp/near_field_filter.cpp:44-126 | Both ears' gains in numbers, for every azimuth and distance: the near gain times (d - 0.0875) is 0.9125 d at the clamped distance d, the far gain is its root, and each ear goes from 1 to its own gain linearly with the lateral angle, the near one on the source's side. |
| `NearField.NearEarDiffersStrictly` | daemon/src/dsp/near_field_filter.cpp:85-126 | Off the median plane the ear on the source's side is boosted strictly more inside one metre and cut strictly more beyond it. |
| `NearField.CloserIsLouder` | daemon/src/dsp/near_field_filter.cpp:44-48 | The on-axis gain falls strictly as the distance grows. |
| `NearField.AzimuthIsNormalized` | daemon/src/dsp/rigid_sphere_math.hpp:30-42 | Every azimuth is brought into (-180, 180] by whole turns. |
| `NearField.AlphaFractionIsShare` | daemon/src/dsp/near_field_filter.cpp:94-95 | The lateral fraction lies in [0, 1], is 0 exactly ahead and behind and 1 exactly at the sides. |
| `NearField.CorrectionIsIdentity` | daemon/src/dsp/near_field_filter.cpp:97-102 | At the reference distance and for sources straight ahead or behind the correction changes no stream. |
| `BinauralVoice.BuildVoiceFilter` | daemon/src/dsp/binaural_voice.cpp:33-49 | Both far-field ears are normalised before the correction is folded in; delays pass through. |
| `BinauralVoice.BinauralVoiceFilter.constructor` | daemon/src/dsp/binaural_voice.cpp:53-62 | Each ear's convolver is loaded with that ear's delayed taps, at the start of its stream. |
| `BinauralVoice.BinauralVoiceFilter.Process` | daemon/src/dsp/binaural_voice.cpp:64-75 | Left samples land on even places, right samples on odd ones, each from its own convolver, and nothing else of the output changes. |
| `BinauralVoice.EarHearsItsStream` | daemon/src/dsp/binaural_voice.cpp:64-75 | For aligned blocks each ear hears exactly its own scaled, filtered, corrected and delayed stream. |
| `BinauralVoice.RenderVoice` | daemon/src/dsp/binaural_voice.cpp:33-75 | Building a voice and rendering any aligned blocks through it gives both ears the chain of processors it was built from. |
| `RingBufferSteps.NextKeepsInv` | common/include/ramkolfx/ring_buffer.hpp:31-68 | Every single load, buffer access and store of either side keeps the queue invariant, stale index loads included. |
| `RingBufferSteps.QueueIsFifo` | common/include/ramkolfx/ring_buffer.hpp:31-68 | In every interleaving: what was popped is a prefix of what was published, so is what the pops and pushes returned; each push accepted a prefix of its own block, each pop at most what it asked for; and at most Capacity samples, the buffer's initial length less one, are in flight. |
| `RingBufferSteps.NoSlotIsReadWhileWritten` | common/include/ramkolfx/ring_buffer.hpp:44-64 | In every interleaving the consumer never reads the slot the producer is writing. |
| `RingBufferSteps.PushStopsIffFull` | common/include/ramkolfx/ring_buffer.hpp:37-43 | Push gives up exactly when the queue was full at the moment it loaded the read index. |
| `RingBufferSteps.PopStopsIffEmpty` | common/include/ramkolfx/ring_buffer.hpp:58-63 | Pop gives up exactly when the queue was empty at the moment it loaded the write index. |
| `RingBufferSteps.AvailableIsInFlight` | common/include/ramkolfx/ring_buffer.hpp:70-75 | With nobody in between, AvailableToRead is the number of samples in flight. |
| `RingBufferSteps.LonePushAcceptsWhatFits` | common/include/ramkolfx/ring_buffer.hpp:31-48 | Step by step, a push that runs alone accepts exactly the prefix of its block that fits, and returns. |
| `RingBufferSteps.LonePopTakesWhatIsThere` | common/include/ramkolfx/ring_buffer.hpp:52-68 | Step by step, a pop that runs alone delivers exactly the oldest elements, as many as asked for and present, and returns. |
| `StereoAlignment.AlignedIff` | common/include/ramkolfx/ring_buffer.hpp:31-68 | The exact condition of stereo alignment, in every interleaving of whole-frame calls on a queue of even capacity: every call moves whole frames if and only if no pop finds the queue empty having seen an odd number of samples published and no push finds it full having seen an odd number released. |
| `StereoAlignment.PopGivesUpEvenIff` | common/include/ramkolfx/ring_buffer.hpp:58-63 | A pop that gives up has delivered whole frames if and only if the write index it loaded was even. |
| `StereoAlignment.PushGivesUpEvenIff` | common/include/ramkolfx/ring_buffer.hpp:37-43 | A push that gives up has accepted whole frames if and only if the read index it loaded was even, counting samples since the start. |
| `StereoAlignment.ApartIsAligned` | daemon/src/audio_engine.cpp:528-633 | Whole-frame calls that never overlap in time always move whole frames, step by step and for any capacity of whole frames. |
| `StereoAlignment.SidesAreKept` | daemon/src/audio_engine.cpp:629-633 | While calls move whole frames, every delivered sample sits at the same side of its frame as in the block it was pushed in: left stays left. |
| `StereoAlignment.OverlappingPopSplitsAFrame` | daemon/src/audio_engine.cpp:629-633 | Stereo alignment fails under overlapping calls on a queue of any capacity from two, the engine's included: an interleaving of calls of one whole frame each in which a pop returns the left sample alone. |
| `StereoAlignment.ChannelsSwapAfterASplit` | daemon/src/audio_engine.cpp:629-633 | What follows from it, with whole-frame calls only: the division by two counts the half frame as none, its sample is lost, and the next pop delivers a right sample where a left one belongs. |
| `StereoAlignment.OverlappingPushSplitsAFrame` | common/include/ramkolfx/ring_buffer.hpp:37-43 | The same for push, on a full queue of any capacity from two, whole-frame calls when the capacity is even: an interleaving in which a push of a frame accepts its left sample alone. |
| `RingBuffer.RingBuffer.constructor` | common/include/ramkolfx/ring_buffer.hpp:25-27 | A new queue is empty and has room for Capacity elements. |
| `RingBuffer.RingBuffer.Push` | common/include/ramkolfx/ring_buffer.hpp:31-48 | Appends exactly the longest prefix of the data that fits. |
| `RingBuffer.RingBuffer.Pop` | common/include/ramkolfx/ring_buffer.hpp:52-68 | Removes and returns exactly the oldest elements, as many as asked for and present. |
| `RingBuffer.RingBuffer.AvailableToRead` | common/include/ramkolfx/ring_buffer.hpp:70-75 | The number of queued elements, without changing them. |
| `StereoBridge.Bridge.HandleVirtualSinkAudio` | daemon/src/audio_engine.cpp:528-553 | A capture callback queues whole frames only: overflow and the scratch limit drop whole trailing frames. |
| `StereoBridge.Bridge.HandleHardwareOutputRequest` | daemon/src/audio_engine.cpp:629-633 | A playback callback delivers the oldest whole frames; the division by two loses nothing. |
| `StereoBridge.FramesArePlayedInOrder` | daemon/src/audio_engine.cpp:528-553 | Over any run of non-overlapping callbacks of any sizes, played and queued frames together are the accepted prefixes of the captured blocks: left and right never swap. |
| `StereoBridge.QueueHoldsOneSecond` | daemon/src/audio_engine.cpp:528-553 | A capture takes what fits of its first 8192 frames into a queue of 48000. |
| `StereoBridge.FramesAlternate` | daemon/src/audio_engine.cpp:528-553 | The queued samples alternate left and right: each channel of the interleaved block holds its frames' samples. |
| `StereoBridge.RunCallbacks` | daemon/src/audio_engine.cpp:528-633 | The callbacks on the real sample queue play the samples of that frame-level run. |
| `SlotProtocol.NextKeepsInv` | daemon/src/dsp/crossfading_slot.hpp:52-143 | Every atomic step of Process, Publish, CollectGarbage and ForwardToLive, by any number of control threads, keeps ownership, fade state, trash accounting and publication order. |
| `SlotProtocol.ObjectsAreConserved` | daemon/src/dsp/crossfading_slot.hpp:52-143 | In every interleaving, each published object at rest is in exactly one of Pending, Live, FadingOut, the two trash slots or dropped, and FadingOut is set exactly while a fade is unfinished. |
| `SlotProtocol.AudioDestroysIff` | daemon/src/dsp/crossfading_slot.hpp:130-142 | A step of the audio thread releases an object's last holder if and only if it lets go of what it pushed out of a trash slot while no control thread uses it. |
| `SlotProtocol.TrashOverflowsIff` | daemon/src/dsp/crossfading_slot.hpp:132-141 | The end of a fade pushes something out of a trash slot if and only if that slot was not cleared since the fade before last. |
| `SlotProtocol.AudioNeverDestroysIff` | daemon/src/dsp/crossfading_slot.hpp:29-37 | The exact condition of the header's promise, over every run with any number of control threads: no step of Process releases the last holder of an object if and only if every object a fade end pushes out of an uncleared slot is still used by a control thread when the audio thread lets it go. |
| `SlotProtocol.AudioThreadNeverDestroys` | daemon/src/dsp/crossfading_slot.hpp:29-37 | Its special case that a caller can arrange: if every fade ends into a slot cleared since the fade before last, no step of Process destroys an object, whatever the control threads use. |
| `SlotProtocol.LastPublicationWins` | daemon/src/dsp/crossfading_slot.hpp:34-38 | Adopted objects follow publication order; when nothing is pending the live object is the last one published. |
| `SlotAdoption.NextCallAdopts` | daemon/src/dsp/crossfading_slot.hpp:81-95 | With no fade unfinished and nobody publishing, the next call to return leaves the pending object live, however its steps interleave with collections and forwarded calls. |
| `SlotAdoption.AdoptedInBoundedTime` | daemon/src/dsp/crossfading_slot.hpp:81-128 | In every interleaving without further publications: once the calls have rendered the frames left of the running fade, the next call to return leaves the last published object live, and it stays live. |
| `SlotProtocol.ThreeUncollectedFadesDestroy` | daemon/src/dsp/crossfading_slot.hpp:132-141 | Counterexample without collection, for every crossfade length: three objects published and faded in one after the other, in calls the slot can hold, make the audio thread destroy the first object. |
| `SlotProtocol.ZeroLengthFadesDestroy` | daemon/src/dsp/crossfading_slot.hpp:81-95 | Counterexample for a zero crossfade length: the second adoption destroys an object on the audio thread. |
| `SlotCollection.CollectionIsItsSteps` | daemon/src/dsp/crossfading_slot.hpp:60-66 | A collection that nobody interrupts, step by step: both trash slots are empty, exactly their two occupants were let go, and nothing else changed. |
| `SlotCollection.CollectionClearsEachSlot` | daemon/src/dsp/crossfading_slot.hpp:60-66 | In every interleaving: by the time a collection has returned it has cleared each slot, at a step of its own in which it took exactly what the slot held. |
| `SlotCollection.PublicationIsItsSteps` | daemon/src/dsp/crossfading_slot.hpp:52-55 | A publication that nobody interrupts makes its object pending and lets go of exactly the one it replaces. |
| `SlotCollection.ForwardedCallKeepsLive` | daemon/src/dsp/crossfading_slot.hpp:157-161 | A forwarded call runs on the object that is live when it loads it, and that object stays held while the call uses it, whatever other threads do. |
| `SlotCollection.CollectingBetweenFadesIsEnough` | daemon/src/dsp/crossfading_slot.hpp:29-66 | What a caller has to do: if between any two fade ends a call of CollectGarbage begins and returns, on whatever threads and however interleaved, the audio thread never destroys an object. |
| `CrossfadingSlot.Crossfader.constructor` | daemon/src/dsp/crossfading_slot.hpp:43-48 | A new slot has its initial object live, nothing pending, fading or trashed, and its own scratch buffers. |
| `CrossfadingSlot.Crossfader.Publish` | daemon/src/dsp/crossfading_slot.hpp:52-55 | The latest publication replaces one not adopted yet and changes nothing else. |
| `CrossfadingSlot.Crossfader.CollectGarbage` | daemon/src/dsp/crossfading_slot.hpp:60-66 | Empties both trash slots and changes nothing else. |
| `CrossfadingSlot.Crossfader.Process` | daemon/src/dsp/crossfading_slot.hpp:74-143 | The slot's new state and every output sample: the live rendering alone, or both renderings mixed by the fade law at their place in the fade; nothing beyond the block is written. |
| `CrossfadingSlot.FadeIgnoresCallSizes` | daemon/src/dsp/crossfading_slot.hpp:110-128 | However a fade is cut into calls, the samples heard are the same: frame n after adoption mixes the new rendering with gain min(n,F)/F. |
| `CrossfadingSlot.RenderFade` | daemon/src/dsp/crossfading_slot.hpp:74-143 | Driving the slot itself through a fade in calls of any sizes, with publications arriving while it runs, puts out exactly that law: every sample has gone min(n, F)/F of the way from the old object's sample to the new one's; what is published meanwhile waits. |
| `CrossfadingSlot.CallsAreCut` | daemon/src/dsp/crossfading_slot.hpp:76-79 | A call renders at most 8192 frames, and a running fade moves on by as many as it renders. |
| `CrossfadingSlot.PendingIsAdopted` | daemon/src/dsp/crossfading_slot.hpp:81-95 | For a row of Process calls with nothing in between: the pending object is live no later than the first call after the remaining fade frames were rendered. `SlotAdoption.AdoptedInBoundedTime` states it for every interleaving. |
| `SlotRefinement.CallIsItsSteps` | daemon/src/dsp/crossfading_slot.hpp:74-143 | A Process call that no other thread interrupts takes the protocol's atomic steps exactly to the slot state the sequential model gives: adoption, fade countdown, trash slot and all. |
| `Fades.GainFromRemaining` | daemon/src/dsp/crossfading_slot.hpp:112-114 | The code's countdown and the law min(n,F)/F give the same gain. |
| `Fades.GainIsSmooth` | daemon/src/dsp/crossfading_slot.hpp:110-128 | The gain starts at 0, ends at 1, stays in between and moves by at most 1/F per frame through both ends of the fade. |
| `Fades.FadeIsLinear` | daemon/src/dsp/crossfading_slot.hpp:110-123 | Every sample of a fade: F (y - old) is min(n, F) (new - old), for every frame n, channel and pair of renderings. |
| `Fades.ConstantFadeIsEven` | daemon/src/dsp/crossfading_slot.hpp:110-123 | Between constant renderings successive frames differ by exactly (new - old)/F until the fade is over and by 0 after it. |
| `Fades.BlendIsBetween` | daemon/src/dsp/crossfading_slot.hpp:119-122 | Every blended sample lies between the two rendered samples. |
| `Fades.BlendBlock` | daemon/src/dsp/crossfading_slot.hpp:110-128 | The nested blend loops write the fade law for every frame and channel and count down the frames left. |
| `NearFieldToggle.BinauralStage.Process` | daemon/src/dsp/binaural_stage.cpp:225-276 | The near-field toggle's new state and every output sample: one path alone, or both mixed by the same fade law towards the requested one. |
| `NearFieldToggle.RenderChange` | daemon/src/dsp/binaural_stage.cpp:225-276 | A change of path rendered in blocks of any sizes follows the crossfading slot's law sample by sample, linear from the old path's samples to the new one's, whatever is requested until it is over. |
| `Wire.FloatRoundTrip` | common/src/protocol.cpp:32-51 | Floats survive bit by bit wherever they stand in a payload. |
| `Wire.StringRoundTrip` | common/src/protocol.cpp:97-123 | A length-prefixed string of up to 65535 bytes is read back, with the offset behind it, wherever it stands. |
| `Wire.HeaderRoundTrip` | common/src/protocol.cpp:25-30 | A header is read back with the opcode and the payload length modulo 65536, whatever follows. |
| `WireLayout.FloatIsBigEndian` | common/src/protocol.cpp:32-51 | Float patterns are written and read most significant byte first. |
| `WireLayout.RequestOnTheWire` | common/include/ramkolfx/protocol.hpp:36-61 | Every sendable request byte by byte: opcode number, length, and each field at its documented place, numbers most significant byte first. |
| `WireLayout.RangesOnTheWire` | common/src/protocol.cpp:139-294 | Which modes, speakers, bands and filter types the server accepts, in numbers. |
| `WireLayout.StateOnTheWire` | common/include/ramkolfx/protocol.hpp:62-70 | Opcode number and length of the status, equaliser and bass enhancer responses. |
| `WireLayout.ListOnTheWire` | common/include/ramkolfx/protocol.hpp:65-68 | Opcode number, length and count of each of the four list responses. |
| `WireLayout.ErrorOnTheWire` | common/src/protocol.cpp:495-503 | Opcode number and length of an error response, its text cut at 4096 bytes. |
| `Protocol.EqBandRoundTrip` | common/src/protocol.cpp:53-71 | An equaliser band is read back unchanged wherever it stands in a payload. |
| `Protocol.BassEnhancerRoundTrip` | common/src/protocol.cpp:73-92 | Bass enhancer settings are read back unchanged. |
| `Protocol.RequestArrivesIff` | common/src/protocol.cpp:139-294 | Over all 23 request opcodes: a client-encoded request is framed by its own header and decodes to exactly the command it asks for if and only if indices, filter types and string lengths are in range. The length field of three content-equaliser requests can wrap because the application name in them is not capped. |
| `Protocol.AcceptedCommandsAreRequests` | common/src/protocol.cpp:139-294 | For every payload the length field can announce, up to 65535 bytes: an accepted command is the command of a request with no stray field set, and a client could have sent that request whole if and only if the strings that run to the payload's end keep to the limit the client cuts them at. |
| `StateResponses.EncodeStatusResponse` | common/src/protocol.cpp:467-493 | The appending loops write every field at its place. |
| `StateResponses.DecodeStatusResponse` | common/src/protocol.cpp:296-333 | The reading loops give every field, or nothing for a short payload, an unknown mode or a truncated device name. |
| `StateResponses.StatusArrivesIff` | common/src/protocol.cpp:296-333 | A status round-trips field by field if and only if its mode is known and its device name leaves the length field room. |
| `StateResponses.StatusLayout` | common/src/protocol.cpp:467-493 | Where each field of a status stands in its payload. |
| `StateResponses.EncodeHwEqStateResponse` | common/src/protocol.cpp:562-576 | Ten bands end to end behind a header. |
| `StateResponses.DecodeHwEqStateResponse` | common/src/protocol.cpp:391-404 | Accepts exactly payloads of ten bands and gives back the bands that were encoded. |
| `StateResponses.BassEnhancerStateArrives` | common/src/protocol.cpp:578-589 | The bass enhancer's state round-trips through its response. |
| `StateResponses.EncodeErrorResponse` | common/src/protocol.cpp:495-503 | An error text arrives whole up to 4096 bytes and is cut there. |
| `ListResponses.EncodeList` | common/src/protocol.cpp:505-560 | The greedy loop keeps exactly the longest prefix of whole entries that fits with its count in 4096 bytes, and patches the count. |
| `ListResponses.FittingPrefixIsLongest` | common/src/protocol.cpp:512-523 | A prefix of the list fits if and only if it is no longer than the one that is sent. |
| `ListResponses.DecodeList` | common/src/protocol.cpp:340-389 | The reading loop gives the announced number of entries, or nothing when the payload ends early. |
| `ListResponses.ListArrives` | common/src/protocol.cpp:591-646 | For each of the four lists under its own opcode: the client decodes exactly that longest prefix, so every index denotes the same entry as in the daemon; the header tells the four apart; no message exceeds 4099 bytes; the whole list arrives if and only if it fits. |
| `ControlServer.HandleClient` | daemon/src/control/control_server.cpp:115-165 | For any sequence of receives: one response per complete message in order, commands handed over as a one-shot parse of the stream would, and exactly the incomplete trailing message left in the buffer. |
| `ControlServer.ErrorTexts` | daemon/src/control/control_server.cpp:148-156 | The two error texts, letter by letter. |
| `ControlServer.ParseExtends` | daemon/src/control/control_server.cpp:129-161 | Later bytes never change events already parsed; they only complete the bytes left over. |
| `ControlServer.StreamIsConcatenation` | daemon/src/control/control_server.cpp:120-127 | How a stream is cut into non-empty receives does not matter. |
| `ControlServer.MessagesAreParsed` | daemon/src/control/control_server.cpp:129-161 | Whole messages with an incomplete tail give one event a message, in order, and leave the tail. |
| `ControlServer.StreamIsMessages` | daemon/src/control/control_server.cpp:129-161 | Every byte stream is such a row of whole messages with an incomplete tail. |
| `ControlServer.RequestsAreDispatched` | daemon/src/control/control_server.cpp:115-162 | End to end: any list of sendable requests, encoded, concatenated and received in any non-empty pieces, reaches the handler as exactly the commands asked for, with nothing left over. |
| `Biquad.Biquad.ProcessSample` | daemon/src/dsp/biquad.hpp:37-43 | One sample through a Direct Form II Transposed section: output and new registers. |
| `Biquad.RunIsTheSolution` | daemon/src/dsp/biquad.hpp:37-43 | From rest, for every input, a section's output is the one and only signal that solves its second-order difference equation. |
| `Biquad.RunInPieces` | daemon/src/dsp/biquad.hpp:37-43 | Cutting a stream into pieces changes neither output nor state. |
| `Biquad.Biquad.SetCoefficients` | daemon/src/dsp/biquad.cpp:18-98 | Retuning installs the designed coefficients and leaves the running state alone. |
| `Biquad.PeakingIsIdentityIff` | daemon/src/dsp/graphic_eq_filter.hpp:26-31 | A peaking band is the exact identity on every input if and only if its gain is zero decibels. |
| `EqDesign.SettingsAreAdmissible` | daemon/src/dsp/biquad.cpp:21-30 | Whatever frequency, gain and Q a client sends, the clamps keep angle, bandwidth and amplitude inside the design's domain. |
| `EqResponse.BandIsItsPrototype` | daemon/src/dsp/biquad.cpp:21-97 | For all six types and all settings: the designed section is the cookbook's analog prototype of that type, quality factor and amplitude under the bilinear transform, centred on the clamped frequency. |
| `EqResponse.BilinearIsSubstitution` | daemon/src/dsp/biquad.cpp:34-97 | What that transform means: at every complex z the section's numerator and denominator are, up to one factor, the prototype's at sin w / (1 - cos w) times (1 - z) / (1 + z). |
| `EqResponse.DesignIsAsked` | daemon/src/dsp/biquad.cpp:21-30 | The angle is 2 pi f / sample rate for the clamped frequency f, and twice Q times the bandwidth is its sine, Q at least 0.05. |
| `EqResponse.LowPassAtCentre` | daemon/src/dsp/biquad.cpp:67-74 | A low pass answers the frequency asked for with gain Q, a quarter turn behind. |
| `EqResponse.LowPassTurnsItsCentre` | daemon/src/dsp/biquad.hpp:37-43 | The same in time, up to the section's free oscillation. |
| `EqResponse.PeakingWidth` | daemon/src/dsp/biquad.cpp:37-44 | A peaking band has half its decibels exactly at the angles t where cos t - cos w is plus or minus sin w sin t / (2 Q). |
| `EqResponse.ToneIsAnswered` | daemon/src/dsp/biquad.hpp:37-43 | A running section turns any rotating tone by its transfer function at that tone, up to its free oscillation. |
| `EqDesign.EveryBandIsStable` | daemon/src/dsp/biquad.cpp:34-97 | For all six filter types and all settings, every pole of the resulting section lies strictly inside the unit circle. |
| `EqTones.PeakGivesTheAskedGain` | daemon/src/dsp/biquad.cpp:37-44 | A tone at the centre of any peaking band comes out of the running section at exactly the asked gain: what differs from the scaled tone obeys the section's free oscillation from the third sample on. |
| `EqDesign.PeakAtCentre` | daemon/src/dsp/biquad.cpp:37-44 | The same on the coefficients: at the centre frequency numerator and denominator of the transfer function differ by exactly the asked gain. |
| `EqTones.NotchRemovesTheTone` | daemon/src/dsp/biquad.cpp:83-90 | A tone at the centre of any notch leaves nothing but the section's own free oscillation. |
| `EqDesign.NotchAtCentre` | daemon/src/dsp/biquad.cpp:83-90 | The same on the coefficients: the numerator of the transfer function is zero at the centre frequency. |
| `EqTones.EndsGetTheirGain` | daemon/src/dsp/biquad.cpp:35-91 | For all six types, a constant signal and one alternating in sign come out of the running section at the gain the type stands for, up to its free oscillation; shelves scale their end by exactly the asked gain. |
| `EqDesign.ResponseAtEnds` | daemon/src/dsp/biquad.cpp:35-91 | The same on the coefficients: numerator over denominator at both ends of the spectrum. |
| `RingDown.EveryBandDiesOut` | daemon/src/dsp/biquad.hpp:37-43 | For all six types and all settings a client can send, a section's free oscillation loses at least a fixed positive share of its energy every two samples, so it decays geometrically, and has no energy only in silence. |
| `CutAndBoost.CutUndoesBoost` | daemon/src/dsp/biquad.cpp:37-66 | For peaking and both shelf types, at any frequency and Q: a boost followed by the cut of the same size gives back every input exactly. |
| `CutAndBoost.InverseUndoes` | daemon/src/dsp/biquad.hpp:37-43 | From rest, a section with the coefficients of another turned upside down undoes it on every input. |
| `Cascade.LastSectionLast` | daemon/src/dsp/graphic_eq_filter.cpp:48-55 | Running each sample through all sections is running the whole stream through the first sections and then through the last. |
| `Cascade.ChainSolves` | daemon/src/dsp/graphic_eq_filter.cpp:48-55 | Any row of signals in which each solves the next section's difference equation ends in the cascade's output. |
| `Cascade.ChainHasSignals` | daemon/src/dsp/graphic_eq_filter.cpp:48-55 | The cascade's output always is the end of such a row. |
| `GraphicEq.DefaultHwEqBands` | daemon/src/dsp/graphic_eq_filter.cpp:14-25 | Ten peaking bands at the ISO centres, all at zero decibels. |
| `GraphicEq.GraphicEqFilter.constructor` | daemon/src/dsp/graphic_eq_filter.cpp:27-36 | Both channels get ten separate sections at rest, each designed from its band. |
| `GraphicEq.GraphicEqFilter.Process` | daemon/src/dsp/graphic_eq_filter.cpp:38-58 | Output and state for any block, with input and output allowed to be one buffer: the result answers what the input held when the call began. |
| `GraphicEq.StereoIsTwoChains` | daemon/src/dsp/graphic_eq_filter.cpp:44-57 | The two channels never mix: each is its own cascade on its own samples. |
| `GraphicEq.StereoRunInPieces` | daemon/src/dsp/graphic_eq_filter.cpp:38-58 | However a stream is cut into calls, the equaliser puts out the same samples. |
| `CurveTones.CurveIsItsBands` | daemon/src/dsp/graphic_eq_filter.cpp:27-58 | A freshly built filter runs each channel through its bands in order, each with the type, frequency, gain and Q it was given. |
| `CurveTones.OneBandAlone` | daemon/src/dsp/graphic_eq_filter.cpp:27-58 | A curve with one band set and the others flat is that band, on both channels. |
| `CurveTones.CurveGivesTheAskedGain` | daemon/src/dsp/graphic_eq_filter.cpp:27-58 | With one peaking band set, a tone at its centre comes out of the whole equaliser at the asked gain, up to the band's free oscillation. |
| `HwEqStage.HwEqStage.constructor` | daemon/src/dsp/hw_eq_stage.cpp:14-20 | The stage starts with a filter at rest, nothing pending and no fade. |
| `HwEqStage.HwEqStage.SetBands` | daemon/src/dsp/hw_eq_stage.cpp:22-25 | A new curve becomes pending as a fresh filter; the live and the fading one are untouched. |
| `HwEqStage.HwEqStage.Process` | daemon/src/dsp/hw_eq_stage.cpp:32-41 | One block, in place or not, also in the middle of a fade: both filters run on what the input held when the call began, mixed by the fade law. |
| `CurveChange.NewCurveFadesIn` | daemon/src/dsp/hw_eq_stage.cpp:22-41 | From the first call after a curve was set between fades: frame n has gone min(n, F)/F of the way from what the old filter puts out for the whole input to what the new one puts out, and the new one is heard alone afterwards, for any cut into calls and whatever is set while the fade runs. |
| `CurveChange.ChangeCurve` | daemon/src/dsp/hw_eq_stage.cpp:22-41 | The same driven on the stage itself: SetBands and any in-place calls. |
| `CurveChange.CurveIsAdopted` | daemon/src/dsp/crossfading_slot.hpp:81-95 | However much of a fade is left when a curve is set, the first call after it has been rendered takes the curve over, and its filter runs on every sample from there on. |
| `HwEqStage.ZeroGainIsFlat` | daemon/src/dsp/graphic_eq_filter.hpp:26-31 | Ten peaking bands at zero decibels make a flat filter whatever their frequencies and widths. |
| `HwEqStage.FlatStageIsTransparent` | daemon/src/dsp/graphic_eq_filter.hpp:26-31 | A stage of flat filters gives back every block unchanged, fades included, and stays flat. |
| `HwEqStage.EqualiseInPlace` | daemon/src/audio_engine.cpp:548-549 | The engine's in-place call on the default curve leaves its buffer exactly as it was. |
| `Settings.Save` | daemon/src/settings_store.cpp:157-181 | Prints every field in order, one line each. |
| `Settings.SavedLines` | daemon/src/settings_store.cpp:160-181 | The general and bass enhancer lines of a saved file as they stand. |
| `Settings.SavedSpeakerLines` | daemon/src/settings_store.cpp:164-169 | The three lines of each speaker as they stand. |
| `Settings.SavedBandLines` | daemon/src/settings_store.cpp:170-177 | The four lines of each band as they stand. |
| `Settings.ReadFields` | daemon/src/settings_store.cpp:75-85 | The table holds exactly the keys in front of the first equals sign of each line, each with its first value. |
| `Settings.Load` | daemon/src/settings_store.cpp:64-155 | Fills every field from the table or keeps its default; no file gives nothing. |
| `Settings.KeySlot` | daemon/src/settings_store.cpp:48-56 | All 69 generated keys differ, and none contains an equals sign or a newline. |
| `Settings.SaveThenLoad` | daemon/src/settings_store.cpp:64-181 | Loading what was saved restores every number, flag and name exactly and every float as the parse of its own printed form, for all settings whose names have no newline; names may contain equals signs. |
| `Settings.NamesRestoredIff` | daemon/src/settings_store.cpp:162-163 | Both names come back if and only if neither contains a newline. |
| `Settings.UnknownKeysKeepDefaults` | daemon/src/settings_store.cpp:87-154 | A file without any of the known keys loads as the defaults, whatever else it holds. |
| `Settings.LongRoundTrip` | daemon/src/settings_store.cpp:92-107 | A printed number is parsed back exactly. |
| `Settings.SignedNumbersAreRead` | daemon/src/settings_store.cpp:92-107 | Signed numbers are read with their sign as far as 64 bits go, larger ones are refused. |
| `Settings.ModeIsOneByte` | daemon/src/settings_store.cpp:131 | A number in the file wraps to one byte as a mode. |
| `DefaultValues.DefaultBandsInNumbers` | daemon/src/dsp/graphic_eq_filter.cpp:14-25 | The default curve's bit patterns are the ISO centres, zero decibels and Q 1.41. |
| `DefaultValues.BassDefaultsInNumbers` | common/include/ramkolfx/protocol.hpp:109-157 | The bit patterns of the bass enhancer's defaults and of a fresh command's band are the documented numbers. |
| `Ambisonics.Encode` | daemon/src/dsp/speaker_layout.cpp:96-108 | The loop sums every source into the field by its weight, cosine and sine. |
| `Ambisonics.DecodeIsWeighted` | daemon/src/dsp/ambisonics_stage.cpp:109-121 | Decoding the summed field weighs each source by the share of its own azimuth. |
| `Ambisonics.EarGainIsBounded` | daemon/src/dsp/ambisonics_stage.cpp:52-64 | With the literal constants and cos^2 + sin^2 = 1 alone, no azimuth's share exceeds one. |
| `Ambisonics.OutputIsBounded` | daemon/src/dsp/ambisonics_stage.cpp:100-125 | No output sample exceeds the sum of the sources' magnitudes plus half the bass channel's. |
| `Ambisonics.MirrorSwapsEars` | daemon/src/dsp/ambisonics_stage.cpp:114-121 | Mirroring all speakers swaps the ears. |
| `Ambisonics.OneSourceIsHeard` | daemon/src/dsp/ambisonics_stage.cpp:100-125 | One source alone, on the output samples: left less right is 4 * 0.70710678 * 0.4805061 times its level and sine, so the left ear is louder exactly when it is on the left; left plus right follows its cosine. |
| `Ambisonics.FrontIsLouder` | daemon/src/dsp/ambisonics_stage.cpp:100-125 | Of two sources of one level the one further to the front is louder in both ears together. |
| `Ambisonics.BoundIsTight` | daemon/src/dsp/ambisonics_stage.cpp:52-64 | A direction that comes through at more than 0.9999 of its level. |
| `Ambisonics.BassIsHeardInBoth` | daemon/src/dsp/ambisonics_stage.cpp:123-124 | The bass channel alone reaches both ears at half its level. |
| `Ambisonics.FramesSuperpose` | daemon/src/dsp/ambisonics_stage.cpp:100-125 | What is heard of two frames added is what is heard of each, added. |
| `Ambisonics.Process` | daemon/src/dsp/ambisonics_stage.cpp:84-126 | Seven-one in, stereo out, frame by frame; any other channel counts give silence; nothing beyond the block is written. |

## Left out

- PipeWire streams, device registry, main loop, threads, sockets and file system calls: only the samples, the byte stream, the text and the atomic steps remain.
- KissFFT's and libmysofa's internals: the transform is its defining sums, a measured filter is arbitrary taps with a reported delay.
- `PartitionedConvolver.Convolver.Load`: the library's choice of a fast transform size is an argument (any even size that fits), and so is the root of unity; loading a second time into one object is a new object here.
- `PartitionedConvolver.Convolver.ProcessAccumulate`: the input block is a sequence, so an input that aliases the output is not modelled.
- `KissFft.InverseReal`: states the real parts of the inverse sums, which is what the library returns for spectra of real signals.
- Floating-point rounding, overflow and NaN: samples and coefficients are reals, wire floats are bit patterns.
- Weak memory ordering: atomics are sequentially consistent.
- `NearField.ComputeNearFieldCorrection`: the low-pass taps and the square root are arguments; the exponential behind the taps is not modelled.
- `BinauralVoice` on top of the slot: the voice filter and the slot are modelled separately; the equaliser stage shows the combination.
- `StereoBridge.FramesArePlayedInOrder`: callbacks do not overlap in time; the overlapping case has its exact condition in `StereoAlignment.AlignedIff`.
- `StereoBridge.Bridge.HandleVirtualSinkAudio`: the processed block is an argument; muting, loudness falloff and test noise before it are left out.
- `SlotProtocol.AudioThreadNeverDestroys`: needs collection to keep up, which is sufficient; the exact condition is `SlotProtocol.AudioNeverDestroysIff`.
- `SlotAdoption.AdoptedInBoundedTime`: a call's frames are counted after its clamp to the slot's scratch size; a call that never returns is not ruled out.
- `CrossfadingSlot.PendingIsAdopted`: only for calls in a row, with nothing published, collected or forwarded in between; `SlotAdoption.AdoptedInBoundedTime` covers the rest.
- `SlotProtocol.NextKeepsInv`: a published object is freshly built, as everywhere in the repository.
- `CrossfadingSlot.Crossfader.Process`: what an object renders is an argument; `HwEqStage` has the slot with real, stateful objects.
- `HwEqStage.HwEqStage.Process`: the trash slots of its crossfading slot are not repeated there.
- `NearFieldToggle.BinauralStage.Process`: the two rendered paths are arguments; the channel-count check and the fallback stage in front of them are left out.
- `ControlServer.HandleClient`: a receive is any byte sequence rather than at most 512 bytes; an empty one stands for a closed or failed connection; responses are taken as sent. The handler's answer may depend on all commands of the connection, not on other connections.
- `Settings.SaveThenLoad`: how the standard library prints and reads a float is an argument; printing is assumed not to produce a newline.
- `EqDesign.EveryBandIsStable`: sine, cosine, root and power are functions with the elementary properties listed in `Sound`; the sample rate must leave the clamp a non-empty range, as `std::clamp` demands.
- `Ambisonics.Process`: input and output are different buffers, as in the engine.
- The bass enhancer's waveshaper, the synthetic HRTF, HRTF loading, the HRTF deck, the passthrough stage, preset handling and the whole GUI: plumbing, or acoustics without algebra.
