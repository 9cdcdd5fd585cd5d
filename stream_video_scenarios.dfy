/**
 * Worked examples: a video track (number 1) with frames at 0 ms (key),
 * 33 ms and 66 ms, interleaved with audio blocks (track 2), fully loaded.
 */
module StreamVideoScenarios {

  import opened Wrappers
  import opened MkvIndex
  import opened RefTime
  import opened StreamVideo
  import opened StreamVideoRuns

  const Video: int := 1
  const Audio: int := 2

  /** Milliseconds to the container's nanoseconds. */
  function Ms(ms: int): (ns: int) { ms * 1000000 }

  function ThreeFrames(loaded: nat): (seg: Segment)
  {
    Segment([
      Block(Ms(0), true, 1200, Video),
      Block(Ms(10), true, 90, Audio),
      Block(Ms(33), false, 300, Video),
      Block(Ms(40), true, 90, Audio),
      Block(Ms(66), false, 310, Video)
    ], loaded)
  }

  /** The state Start leaves when the seek found the first frame. */
  function Started(): (c: Cursor) { Cursor(SeekInfo(Entry(0), NoHints), true) }

  /**
   * Start at 0 and pull four times: three samples with 33 ms durations except
   * the last, which has none; only the first is a discontinuity; then
   * "no sample". Without a preroll boundary no sample is marked preroll.
   */
  lemma PlaybackFromStart()
    ensures WellFormed(ThreeFrames(5), Video)
    ensures Pull(ThreeFrames(5), Video, -1, Started(), 4) == [
      Produced(Sample(0, 1200, 0, Some(330000), true, true, false)),
      Produced(Sample(2, 300, 330000, Some(330000), false, false, false)),
      Produced(Sample(4, 310, 660000, None, false, false, false)),
      NoSample]
  {
  }

  /** With a 50 ms preroll boundary the frames at 0 ms and 33 ms are preroll, the one at 66 ms is not. */
  lemma PrerollMarksEarlyFrames()
    ensures WellFormed(ThreeFrames(5), Video)
    ensures Pull(ThreeFrames(5), Video, Ms(50), Started(), 3) == [
      Produced(Sample(0, 1200, 0, Some(330000), true, true, true)),
      Produced(Sample(2, 300, 330000, Some(330000), false, false, true)),
      Produced(Sample(4, 310, 660000, None, false, false, false))]
  {
  }

  lemma ThreeFramesWellFormed(loaded: nat)
    requires loaded <= 5
    ensures WellFormed(ThreeFrames(loaded), Video)
  {
  }

  /** The cursor after the 0 ms frame: on the 33 ms frame, flag consumed. */
  function OnSecondFrame(): (c: Cursor) { Cursor(SeekInfo(Entry(2), NoHints), false) }

  /** With three blocks loaded: the first frame is produced, then the look-ahead from the second underflows. */
  lemma PartialSegmentCalls()
    ensures WellFormed(ThreeFrames(3), Video)
    ensures Populate(ThreeFrames(3), Video, -1, Started())
      == (Produced(Sample(0, 1200, 0, Some(330000), true, true, false)), OnSecondFrame())
    ensures Populate(ThreeFrames(3), Video, -1, OnSecondFrame()) == (BufferUnderflow, OnSecondFrame())
  {
    ThreeFramesWellFormed(3);
    assert GetNext(ThreeFrames(3), Video, Entry(0)) == Found(Entry(2));
    assert GetNext(ThreeFrames(3), Video, Entry(2)) == BufferNotFull;
  }

  /** With everything loaded, the retry from the second frame produces its sample. */
  lemma FullSegmentRetry()
    ensures WellFormed(ThreeFrames(5), Video)
    ensures Populate(ThreeFrames(5), Video, -1, OnSecondFrame()).0
      == Produced(Sample(2, 300, 330000, Some(330000), false, false, false))
  {
    ThreeFramesWellFormed(5);
    assert GetNext(ThreeFrames(5), Video, Entry(2)) == Found(Entry(4));
  }

  /**
   * The stream object driven as a host would: Start, pull while only the first
   * three blocks are loaded (the second call underflows and leaves the cursor
   * on the 33 ms frame), then pull again once everything is loaded.
   */
  method UnderflowThenRetry() returns (outs: seq<Outcome>)
    ensures outs == [
      Produced(Sample(0, 1200, 0, Some(330000), true, true, false)),
      BufferUnderflow,
      Produced(Sample(2, 300, 330000, Some(330000), false, false, false))]
  {
    PartialSegmentCalls();
    FullSegmentRetry();
    var stream := new WebmMfStreamVideo(Video);
    stream.Start(SeekInfo(Entry(0), NoHints));
    assert stream.State() == Started();
    var first := stream.PopulateSample(ThreeFrames(3), -1);
    assert stream.State() == OnSecondFrame();
    var second := stream.PopulateSample(ThreeFrames(3), -1);
    assert stream.State() == OnSecondFrame();
    var third := stream.PopulateSample(ThreeFrames(5), -1);
    outs := [first, second, third];
  }
}
