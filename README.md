# WebM Media Foundation source: the video stream's sample cursor

This project models, in Dafny, how `WebmMfStreamVideo` turns the blocks of a
WebM video track into Media Foundation samples. The stream holds two pieces of
state:

- the current block entry (`m_curr`, a `SeekInfo`);
- a one-shot discontinuity flag (`m_bDiscontinuity`).

`Start` and `Seek` put the cursor on the entry a seek found and re-arm the
flag. `PopulateSample` works through these steps:

1. It reports "no sample" (`S_FALSE`) for a null or end-of-stream entry.
2. It asks the track for the following block and reports
   `VFW_E_BUFFER_UNDERFLOW` when that block is not loaded yet.
3. Otherwise it stamps the sample:
   - the time is `ns / 100`, truncated toward zero;
   - the duration is the truncated `(next_ns - curr_ns) / 100`, set only when a real next block exists;
   - the clean point is the block's key flag;
   - the discontinuity flag is applied once;
   - the preroll attribute is set before the preroll boundary.
4. Only then does it commit the cursor to the next block.

Modules:

- `Wrappers`: the `Option` type.
- `RefTime`: the nanosecond-to-reference-time conversion with C++ truncating division.
- `MkvIndex`: an abstraction of the container index the stream consumes. The segment's blocks
  are kept in file order, interleaved across tracks, and only a prefix of them is loaded.
  `Track::GetNext` becomes `NextOfTrack`: it skips other tracks' blocks, reports
  "buffer not full" at the edge of the loaded data, and returns the end-of-stream entry
  when everything is loaded.
- `StreamVideo`: the specification function `Populate` over a cursor value, and the class
  `WebmMfStreamVideo`. Its `PopulateSample` method is written step by step like the source
  and is proved to agree with `Populate`. `GetCurrBlock` is the getter; `PopulateSample`'s
  postcondition says what it returns after a sample.
- `StreamVideoRuns`: what a caller sees over `n` successive calls (`Pull`).
- `StreamVideoScenarios`: worked examples, including a driven stream object.

`PopulateSample` itself asserts several facts about the index:

- the current block belongs to the stream's track (webmmfstreamvideo.cpp:405);
- `GetNext` succeeds with a non-null entry (lines 422-423);
- the payload size is non-negative (line 427);
- `next_ns >= curr_ns` (line 522).

The code only asserts these and reports no fault for them. The model has no check of its own for them:

- A track mismatch and a dangling current entry are excluded by the precondition `MkvIndex.CursorValid`. It requires the current entry to be a loaded block of the stream's track. The cursor stays valid after every call.
- The non-null look-ahead is built into `MkvIndex.NextResult`. `NextOfTrack` can only return "buffer not full", a real entry or the end-of-stream entry.
- The size is a `nat` in `MkvIndex.Block`.
- Decreasing times are excluded by the precondition `MkvIndex.WellFormed`. It asks more than the single assertion at line 522: all blocks of the track, not just consecutive samples, must be in time order, and the loaded prefix must lie within the segment.

## Model

| member | source | states |
|---|---|---|
| `RefTime.NsToRefTime` | mediafoundation/webmmfsource/webmmfstreamvideo.cpp:476-477 | The sample time is the block time divided by 100 and truncated toward zero: for `ns >= 0`, `0 <= 100*r <= ns < 100*r + 100`; for `ns < 0`, `100*r - 100 < ns <= 100*r <= 0`. |
| `RefTime.NsToRefTimeMonotone` | mediafoundation/webmmfsource/webmmfstreamvideo.cpp:476-477 | The conversion keeps the order of block times. |
| `RefTime.DurationDrift` | mediafoundation/webmmfsource/webmmfstreamvideo.cpp:521-524 | The duration is converted from the nanosecond difference. It differs from the difference of the two converted sample times by at most one unit, and by 0 or +1 for non-negative times. |
| `MkvIndex.NextOfTrack` | mediafoundation/webmmfsource/webmmfstreamvideo.cpp:417-423 | The look-ahead never yields a null entry. A real next entry is a loaded block of the track, and no block of the track lies between. End of stream means the segment is fully loaded and no block of the track remains. "Buffer not full" means the loaded prefix ended before a block of the track was found. |
| `MkvIndex.GetNext` | mediafoundation/webmmfsource/webmmfstreamvideo.cpp:417-423 | The look-ahead from the current entry is never null. A real next entry is a loaded block of the track strictly after the current one, with no block of the track between them. End of stream needs the segment fully loaded. "Buffer not full" is reported exactly when the segment is not fully loaded and no block of the track follows within the loaded prefix. |
| `MkvIndex.NextOfTrackStable` | mediafoundation/webmmfsource/webmmfstreamvideo.cpp:417-420 | A look-ahead that did not report "buffer not full" gives the same entry once more data has arrived. |
| `StreamVideo.Populate` | mediafoundation/webmmfsource/webmmfstreamvideo.cpp:394-533 | "No sample" exactly when the entry is null or end of stream. An underflow happens exactly when the entry is real, the segment is not fully loaded, and no block of the track follows the current one in the loaded prefix. Otherwise a sample is produced. Any outcome other than a sample leaves entry and flag unchanged. A sample carries the current block, `payloadLen` = block size, time = `NsToRefTime(curr_ns)`, clean point = key flag and discontinuity = the old flag. Its preroll flag is set iff `preroll_ns >= 0 && curr_ns < preroll_ns`. Afterwards the flag is cleared and the entry is the non-null look-ahead. When that is a real block (a later block of the track, none skipped), the duration is `NsToRefTime(next_ns - curr_ns) >= 0`. When it is the end-of-stream entry, the segment is fully loaded and there is no duration. |
| `StreamVideo.PrerollIsAdvisory` | mediafoundation/webmmfsource/webmmfstreamvideo.cpp:482-489 | The preroll boundary changes only the preroll attribute. It never changes time, duration, other flags, outcome or the new state. |
| `StreamVideo.WebmMfStreamVideo.constructor` | mediafoundation/webmmfsource/webmmfstreamvideo.cpp:153-160 | A new stream has a null current block entry. |
| `StreamVideo.WebmMfStreamVideo.GetCurrBlock` | mediafoundation/webmmfsource/webmmfstreamvideo.cpp:536-539 | Returns the current entry of `m_curr`. What that entry is after each operation is stated by `Start`, `Seek` and `PopulateSample`. |
| `StreamVideo.WebmMfStreamVideo.Start` | mediafoundation/webmmfsource/webmmfstreamvideo.cpp:168-173 | The cursor becomes the supplied seek position and the discontinuity flag is set. |
| `StreamVideo.WebmMfStreamVideo.Seek` | mediafoundation/webmmfsource/webmmfstreamvideo.cpp:208-213 | The cursor becomes the supplied seek position and the discontinuity flag is set. |
| `StreamVideo.WebmMfStreamVideo.PopulateSample` | mediafoundation/webmmfsource/webmmfstreamvideo.cpp:394-539 | The outcome and the new fields equal `Populate` on the old fields. The cursor stays valid for the track. After a sample, `GetCurrBlock` returns exactly the looked-ahead `GetNext` entry. |
| `StreamVideoRuns.Pull` | mediafoundation/webmmfsource/webmmfstreamvideo.cpp:417-420 | Over a run of calls on a fully loaded segment, no call underflows. |
| `StreamVideoRuns.StallsRepeat` | mediafoundation/webmmfsource/webmmfstreamvideo.cpp:398-420 | On the same data, "no sample" and "buffer underflow" repeat on every later call. So end of stream is terminal, and the samples of a run form a prefix. |
| `StreamVideoRuns.SamplesComeFromTrack` | mediafoundation/webmmfsource/webmmfstreamvideo.cpp:403-405 | Every sample of a run carries a loaded block of the stream's track, at or after the start position, and its time is that block's converted time. |
| `StreamVideoRuns.ConsecutiveSamples` | mediafoundation/webmmfsource/webmmfstreamvideo.cpp:512-530 | Two consecutive samples carry consecutive blocks of the track, with none skipped. The first one's duration is the truncated time difference to the second, and the second is not a discontinuity. |
| `StreamVideoRuns.DiscontinuityIsOneShot` | mediafoundation/webmmfsource/webmmfstreamvideo.cpp:465-474 | A sample of a run is marked as a discontinuity iff it comes from the first call and the flag was set (by `Start` or `Seek`). |
| `StreamVideoRuns.SampleTimesNonDecreasing` | mediafoundation/webmmfsource/webmmfstreamvideo.cpp:476-480 | Across a run, sample blocks strictly increase and sample times never decrease. |
| `StreamVideoRuns.LastSampleEndsTrack` | mediafoundation/webmmfsource/webmmfstreamvideo.cpp:509-530 | A sample without a duration is the track's last: every later call reports "no sample". |
| `StreamVideoRuns.PopulateStable` | mediafoundation/webmmfsource/webmmfstreamvideo.cpp:417-420 | A call that did not underflow gives the same outcome and state on a segment with more data loaded. |
| `StreamVideoRuns.MoreDataKeepsOutcomes` | mediafoundation/webmmfsource/webmmfstreamvideo.cpp:417-420 | Once more data has arrived, a run from the same state repeats every outcome that was not an underflow. A sample does not depend on how much was loaded, and a retry after an underflow is just a call on the new data. |
| `StreamVideoScenarios.PlaybackFromStart` | mediafoundation/webmmfsource/webmmfstreamvideo.cpp:394-533 | Frames at 0/33/66 ms interleaved with audio: the samples are times 0/330000/660000, with durations 330000/330000/none. Only the first is a key and a discontinuity. Then "no sample". |
| `StreamVideoScenarios.PrerollMarksEarlyFrames` | mediafoundation/webmmfsource/webmmfstreamvideo.cpp:482-489 | With a 50 ms preroll boundary, the 0 ms and 33 ms frames are preroll and the 66 ms frame is not. |
| `StreamVideoScenarios.PartialSegmentCalls` | mediafoundation/webmmfsource/webmmfstreamvideo.cpp:417-420 | With only the first three blocks loaded, the first call produces the 0 ms sample and moves to the 33 ms frame. The next call underflows and leaves that state as it was. |
| `StreamVideoScenarios.FullSegmentRetry` | mediafoundation/webmmfsource/webmmfstreamvideo.cpp:512-530 | Once all blocks are loaded, the retry from the 33 ms frame produces its sample, with the 33 ms duration taken from the 66 ms frame. |
| `StreamVideoScenarios.UnderflowThenRetry` | mediafoundation/webmmfsource/webmmfstreamvideo.cpp:417-420 | On the driven object, an underflow leaves the cursor on the same frame. The retry after more data yields that frame's sample. |

## Left out

- `CreateStreamDescriptor` builds COM media types. Its frame-rate ratio search is floating-point `modf` arithmetic.
- `CreateStream` and the destructor only allocate and wire objects.
- The constructor leaves `m_bDiscontinuity` as the base class `WebmMfStream` initialises it; that base class is not part of this model. The model cannot observe this: a null cursor produces nothing before `Start` or `Seek` sets the flag.
- Start and Seek return the result of `OnStart`/`OnSeek`, which belong to the base class and are not part of this model. Here the methods return nothing.
- The `_DEBUG` blocks in `Start`/`Seek` only log and assert. This includes the assertion that the seek target is a key block, which is not imposed as a precondition.
- `GetCluster` delegates to the parser's `Segment::GetCluster`, which is not part of this model. Its result enters the model as the `SeekInfo` given to `Start`/`Seek`, with the cluster, cue point and track position as opaque hints.
- The `#if 0` `OnPopulateSample` is disabled code.
- Creating and locking the Media Foundation buffer and reading the payload through `IMkvReader` are foreign I/O. A sample records which block's payload it carries and its length.
- The matroska parser is not part of this model. It is abstracted as a flat, per-segment sequence of blocks with a loaded prefix; cluster loading and per-cluster timecodes are folded into each block's nanosecond time.
- `SeekInfo`'s default constructor is not part of this model. The committed look-ahead is taken to carry no seek hints.
- Times are unbounded integers. The 64-bit `LONGLONG` range is not modelled, so an overflow of `next_ns - curr_ns` with extreme times is not captured.
- The audio stream's read-ahead quota (`m_pQuota`, `GetQuota`, `GetNextBlock`, `NotifyNextCluster`) appears only as declarations without bodies, so it is not modelled.
- The test player `mfplayer.cpp` is UI and COM event plumbing with no sample logic.
- A duration is the truncated nanosecond difference `(next_ns - curr_ns) / 100`, not the difference of the two converted sample times. `RefTime.DurationDrift` bounds the gap between the two.
- A track mismatch, a negative size and decreasing times are only asserted in the code (lines 405, 427, 522), never reported as errors. So here they are preconditions or types, and the model has no fault outcome.
