/**
 * The video stream's sample cursor: the current block entry, the one-shot
 * discontinuity flag, and the synthesis of one Media Foundation sample per
 * call from the current block and the block that follows it.
 */
module StreamVideo {

  import opened Wrappers
  import opened MkvIndex
  import opened RefTime

  /** Where to start reading: the block entry found by a seek, plus the parser's seek hints. */
  datatype SeekHints = NoHints | Hints(cluster: nat, cuePoint: nat, trackPosition: nat)

  datatype SeekInfo = SeekInfo(entry: BlockEntry, hints: SeekHints)

  /**
   * The attributes PopulateSample puts on a sample: which block's payload it
   * carries and how many bytes, the sample time and optional duration (both in
   * 100-nanosecond units), and the clean-point, discontinuity and preroll flags.
   */
  datatype Sample = Sample(
    block: nat,
    payloadLen: nat,
    time: int,
    duration: Option<int>,
    cleanPoint: bool,
    discontinuity: bool,
    preroll: bool)

  /** `S_FALSE` (no sample: null or end-of-stream cursor), `VFW_E_BUFFER_UNDERFLOW`, or `S_OK` with the sample. */
  datatype Outcome = NoSample | BufferUnderflow | Produced(sample: Sample)

  /** The stream's state as a value: `m_curr` and `m_bDiscontinuity`. */
  datatype Cursor = Cursor(curr: SeekInfo, discontinuity: bool)

  /** The preroll attribute: a preroll boundary is configured and the block starts before it. */
  predicate IsPreroll(prerollNs: int, currNs: int)
  {
    prerollNs >= 0 && currNs < prerollNs
  }

  /**
   * One call of PopulateSample on a value: the outcome and the state after it.
   * Early exits leave the state as it was; a produced sample commits the
   * cursor to the looked-ahead entry and consumes the discontinuity flag.
   */
  function Populate(seg: Segment, track: int, prerollNs: int, c: Cursor): (res: (Outcome, Cursor))
    requires WellFormed(seg, track)
    requires CursorValid(seg, track, c.curr.entry)
    ensures CursorValid(seg, track, res.1.curr.entry)
    ensures !res.0.Produced? ==> res.1 == c
    ensures res.0.NoSample? <==> !c.curr.entry.Entry?
    ensures res.0.BufferUnderflow? <==>
      && c.curr.entry.Entry?
      && seg.loaded < |seg.blocks|
      && Skipped(seg, track, c.curr.entry.index + 1, seg.loaded)
    ensures res.0.Produced? ==>
      var i, s, c' := c.curr.entry.index, res.0.sample, res.1;
      && c.curr.entry.Entry?
      && s.block == i
      && s.payloadLen == seg.blocks[i].size
      && s.time == NsToRefTime(seg.blocks[i].timeNs)
      && s.cleanPoint == seg.blocks[i].isKey
      && s.discontinuity == c.discontinuity
      && s.preroll == IsPreroll(prerollNs, seg.blocks[i].timeNs)
      && !c'.discontinuity
      && c'.curr.entry != Null
      && (c'.curr.entry.Entry? ==>
            && i < c'.curr.entry.index
            && Skipped(seg, track, i + 1, c'.curr.entry.index)
            && s.duration.Some?
            && s.duration.value >= 0
            && s.duration.value == NsToRefTime(seg.blocks[c'.curr.entry.index].timeNs - seg.blocks[i].timeNs))
      && (c'.curr.entry.EndOfStream? ==>
            && s.duration.None?
            && seg.loaded == |seg.blocks|
            && Skipped(seg, track, i + 1, |seg.blocks|))
  {
    match c.curr.entry
    case Null => (NoSample, c)
    case EndOfStream => (NoSample, c)
    case Entry(i) =>
      match GetNext(seg, track, c.curr.entry)
      case BufferNotFull => (BufferUnderflow, c)
      case Found(next) =>
        var b := seg.blocks[i];
        var duration := if next.Entry? then Some(NsToRefTime(seg.blocks[next.index].timeNs - b.timeNs)) else None;
        var s := Sample(i, b.size, NsToRefTime(b.timeNs), duration, b.isKey, c.discontinuity, IsPreroll(prerollNs, b.timeNs));
        (Produced(s), Cursor(SeekInfo(next, NoHints), false))
  }

  /**
   * The preroll boundary only decides the preroll attribute: the outcome
   * otherwise, the sample time and duration included, and the new state do
   * not depend on it.
   */
  lemma PrerollIsAdvisory(seg: Segment, track: int, p1: int, p2: int, c: Cursor)
    requires WellFormed(seg, track)
    requires CursorValid(seg, track, c.curr.entry)
    ensures var r1, r2 := Populate(seg, track, p1, c), Populate(seg, track, p2, c);
      && r1.1 == r2.1
      && (!r1.0.Produced? ==> r1.0 == r2.0)
      && (r1.0.Produced? ==> r2.0.Produced? && r1.0.sample.(preroll := false) == r2.0.sample.(preroll := false))
  {
  }

  /** The video stream object: the track it reads and its cursor state. */
  class WebmMfStreamVideo {
    const trackNumber: int
    var curr: SeekInfo
    var discontinuity: bool

    /** The cursor state as a value. */
    function State(): (c: Cursor)
      reads this
    {
      Cursor(curr, discontinuity)
    }

    /** The current block entry (`m_curr.pBlockEntry`): the entry the next PopulateSample call reads. */
    function GetCurrBlock(): (e: BlockEntry)
      reads this
      ensures e == State().curr.entry
    {
      curr.entry
    }

    /** A new stream starts with a null block entry. */
    constructor (trackNumber: int)
      ensures this.trackNumber == trackNumber
      ensures GetCurrBlock() == Null
    {
      this.trackNumber := trackNumber;
      curr := SeekInfo(Null, NoHints);
    }

    /** Start playback at the position a seek found: re-arms the discontinuity flag. */
    method Start(info: SeekInfo)
      modifies this
      ensures curr == info && discontinuity
    {
      discontinuity := true;
      curr := info;
    }

    /** Seek to the position a seek found: re-arms the discontinuity flag. */
    method Seek(info: SeekInfo)
      modifies this
      ensures curr == info && discontinuity
    {
      discontinuity := true;
      curr := info;
    }

    /**
     * Fills one sample from the current block, looking one block ahead for its
     * duration, and commits the cursor to that next block only on success.
     */
    method PopulateSample(seg: Segment, prerollNs: int) returns (r: Outcome)
      requires WellFormed(seg, trackNumber)
      requires CursorValid(seg, trackNumber, curr.entry)
      modifies this
      ensures (r, State()) == Populate(seg, trackNumber, prerollNs, old(State()))
      ensures CursorValid(seg, trackNumber, GetCurrBlock())
      ensures r.Produced? ==>
        old(curr.entry).Entry? && GetCurrBlock() == GetNext(seg, trackNumber, old(curr.entry)).entry
    {
      var pCurr := curr.entry;
      if pCurr.Null? || pCurr.EndOfStream? {
        return NoSample;
      }
      var currBlock := seg.blocks[pCurr.index];

      var next := GetNext(seg, trackNumber, pCurr);
      if next.BufferNotFull? {
        return BufferUnderflow;
      }

      var cbBuffer := currBlock.size;
      var bKey := currBlock.isKey;

      var markDiscontinuity := false;
      if discontinuity {
        markDiscontinuity := true;
        discontinuity := false;
      }

      var currNs := currBlock.timeNs;
      var sampleTime := NsToRefTime(currNs);
      var preroll := IsPreroll(prerollNs, currNs);

      var duration := None;
      var pNextEntry := next.entry;
      if pNextEntry.Entry? {
        var nextNs := seg.blocks[pNextEntry.index].timeNs;
        duration := Some(NsToRefTime(nextNs - currNs));
      }

      curr := SeekInfo(pNextEntry, NoHints);
      r := Produced(Sample(pCurr.index, cbBuffer, sampleTime, duration, bKey, markDiscontinuity, preroll));
    }
  }
}
