/**
 * An abstraction of the container index (the Matroska parser) as the video
 * stream sees it: the segment's blocks in file order, interleaved across
 * tracks, of which only a prefix has been loaded so far. `Track::GetNext`
 * walks forward from a block to the next block of the same track; it reports
 * "buffer not full" when that walk runs into data that is not loaded yet, and
 * the track's end-of-stream entry when the whole segment is loaded and no
 * further block of the track exists.
 */
module MkvIndex {

  /** One coded block: presentation time in nanoseconds, key flag, payload size and track. */
  datatype Block = Block(timeNs: int, isKey: bool, size: nat, track: int)

  /** A `BlockEntry` pointer: null, a real block (its position in the segment) or the track's EOS entry. */
  datatype BlockEntry = Null | Entry(index: nat) | EndOfStream

  /** The segment: all blocks in file order, the first `loaded` of which are buffered. */
  datatype Segment = Segment(blocks: seq<Block>, loaded: nat)

  /** The outcome of `Track::GetNext`: `E_BUFFER_NOT_FULL`, or a non-null entry. */
  datatype NextResult = BufferNotFull | Found(entry: BlockEntry)

  /**
   * What the index must satisfy for the stream's track: the loaded prefix lies
   * within the segment and the track's block times never decrease (the
   * stream asserts the latter for each pair of consecutive samples).
   */
  ghost predicate WellFormed(seg: Segment, track: int)
  {
    && seg.loaded <= |seg.blocks|
    && (forall i, j ::
          0 <= i < j < |seg.blocks| && seg.blocks[i].track == track && seg.blocks[j].track == track
          ==> seg.blocks[i].timeNs <= seg.blocks[j].timeNs)
  }

  /** An entry a cursor of `track` may hold: a real entry is a loaded block of that track. */
  ghost predicate CursorValid(seg: Segment, track: int, e: BlockEntry)
  {
    e.Entry? ==> e.index < seg.loaded && e.index < |seg.blocks| && seg.blocks[e.index].track == track
  }

  /** No block of `track` among positions `lo` up to (not including) `hi`. */
  ghost predicate Skipped(seg: Segment, track: int, lo: nat, hi: nat)
    requires hi <= |seg.blocks|
  {
    forall k :: lo <= k < hi ==> seg.blocks[k].track != track
  }

  /** The first block of `track` at or after position `from`. */
  function NextOfTrack(seg: Segment, track: int, from: nat): (r: NextResult)
    requires seg.loaded <= |seg.blocks|
    decreases |seg.blocks| - from
    ensures r.Found? ==> r.entry != Null
    ensures r.Found? && r.entry.Entry? ==>
      && from <= r.entry.index < seg.loaded
      && seg.blocks[r.entry.index].track == track
      && Skipped(seg, track, from, r.entry.index)
    ensures r.Found? && r.entry.EndOfStream? ==>
      seg.loaded == |seg.blocks| && Skipped(seg, track, from, |seg.blocks|)
    ensures r.BufferNotFull? ==>
      seg.loaded < |seg.blocks| && Skipped(seg, track, from, seg.loaded)
  {
    if from >= seg.loaded then
      if seg.loaded == |seg.blocks| then Found(EndOfStream) else BufferNotFull
    else if seg.blocks[from].track == track then
      Found(Entry(from))
    else
      NextOfTrack(seg, track, from + 1)
  }

  /** `Track::GetNext`: the entry that follows the real entry `curr` in its track. */
  function GetNext(seg: Segment, track: int, curr: BlockEntry): (r: NextResult)
    requires seg.loaded <= |seg.blocks|
    requires curr.Entry?
    ensures r.Found? ==> r.entry != Null
    ensures r.Found? && r.entry.Entry? ==>
      && curr.index < r.entry.index < seg.loaded
      && seg.blocks[r.entry.index].track == track
      && Skipped(seg, track, curr.index + 1, r.entry.index)
    ensures r.Found? && r.entry.EndOfStream? ==>
      seg.loaded == |seg.blocks| && Skipped(seg, track, curr.index + 1, |seg.blocks|)
    ensures r.BufferNotFull? <==>
      seg.loaded < |seg.blocks| && Skipped(seg, track, curr.index + 1, seg.loaded)
  {
    NextOfTrack(seg, track, curr.index + 1)
  }

  /** `more` is `seg` after further data arrived: the same blocks, a longer loaded prefix. */
  ghost predicate Extends(seg: Segment, more: Segment)
  {
    && seg.blocks == more.blocks
    && seg.loaded <= more.loaded <= |more.blocks|
  }

  /**
   * A lookup that did not need more data gives the same answer once more data
   * has arrived: only "buffer not full" can change.
   */
  lemma NextOfTrackStable(seg: Segment, more: Segment, track: int, from: nat)
    requires Extends(seg, more)
    requires NextOfTrack(seg, track, from).Found?
    ensures NextOfTrack(more, track, from) == NextOfTrack(seg, track, from)
  {
  }
}
