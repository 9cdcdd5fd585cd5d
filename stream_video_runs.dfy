/**
 * Properties of successive PopulateSample calls on one track: what a caller
 * pulling samples one after another observes, stated over the outcomes of
 * `n` calls from a given cursor state.
 */
module StreamVideoRuns {

  import opened Wrappers
  import opened MkvIndex
  import opened RefTime
  import opened StreamVideo

  /** The outcomes of `n` successive PopulateSample calls starting from state `c`. */
  function Pull(seg: Segment, track: int, prerollNs: int, c: Cursor, n: nat): (outs: seq<Outcome>)
    requires WellFormed(seg, track)
    requires CursorValid(seg, track, c.curr.entry)
    ensures |outs| == n
    ensures seg.loaded == |seg.blocks| ==> forall k :: 0 <= k < n ==> !outs[k].BufferUnderflow?
    decreases n
  {
    if n == 0 then []
    else
      var (o, c') := Populate(seg, track, prerollNs, c);
      [o] + Pull(seg, track, prerollNs, c', n - 1)
  }

  /** Unfolds one call of a run: its first outcome, then the run from the state that call leaves. */
  lemma PullUnfold(seg: Segment, track: int, prerollNs: int, c: Cursor, n: nat)
    requires WellFormed(seg, track)
    requires CursorValid(seg, track, c.curr.entry)
    requires n > 0
    ensures var res := Populate(seg, track, prerollNs, c);
      var outs, rest := Pull(seg, track, prerollNs, c, n), Pull(seg, track, prerollNs, res.1, n - 1);
      && outs[0] == res.0
      && (forall k :: 0 < k < n ==> outs[k] == rest[k - 1])
  {
  }

  /**
   * "No sample" and "buffer underflow" change nothing, so on the same data
   * every later call repeats them; in particular the produced samples form a
   * prefix of the run.
   */
  lemma {:induction false} StallsRepeat(seg: Segment, track: int, prerollNs: int, c: Cursor, n: nat)
    requires WellFormed(seg, track)
    requires CursorValid(seg, track, c.curr.entry)
    decreases n
    ensures var outs := Pull(seg, track, prerollNs, c, n);
      forall i, j :: 0 <= i <= j < n && !outs[i].Produced? ==> outs[j] == outs[i]
  {
    if n > 0 {
      var outs := Pull(seg, track, prerollNs, c, n);
      var (o, c') := Populate(seg, track, prerollNs, c);
      var rest := Pull(seg, track, prerollNs, c', n - 1);
      PullUnfold(seg, track, prerollNs, c, n);
      StallsRepeat(seg, track, prerollNs, c', n - 1);
      if !o.Produced? && n > 1 {
        PullUnfold(seg, track, prerollNs, c', n - 1);
        assert rest[0] == o;
      }
    }
  }

  /**
   * Every produced sample carries a loaded block of the track at or after the
   * block the run started from.
   */
  lemma {:induction false} SamplesComeFromTrack(seg: Segment, track: int, prerollNs: int, c: Cursor, n: nat)
    requires WellFormed(seg, track)
    requires CursorValid(seg, track, c.curr.entry)
    decreases n
    ensures var outs := Pull(seg, track, prerollNs, c, n);
      forall k :: 0 <= k < n && outs[k].Produced? ==>
        && c.curr.entry.Entry?
        && c.curr.entry.index <= outs[k].sample.block < seg.loaded
        && seg.blocks[outs[k].sample.block].track == track
        && outs[k].sample.time == NsToRefTime(seg.blocks[outs[k].sample.block].timeNs)
  {
    if n > 0 {
      var (o, c') := Populate(seg, track, prerollNs, c);
      PullUnfold(seg, track, prerollNs, c, n);
      SamplesComeFromTrack(seg, track, prerollNs, c', n - 1);
    }
  }

  /**
   * Two consecutive produced samples carry consecutive blocks of the track;
   * the first one's duration is the truncated time difference to the second,
   * and the second is never marked as a discontinuity.
   */
  lemma {:induction false} ConsecutiveSamples(seg: Segment, track: int, prerollNs: int, c: Cursor, n: nat)
    requires WellFormed(seg, track)
    requires CursorValid(seg, track, c.curr.entry)
    decreases n
    ensures var outs := Pull(seg, track, prerollNs, c, n);
      forall k :: 0 <= k < n - 1 && outs[k].Produced? && outs[k + 1].Produced? ==>
        var s, t := outs[k].sample, outs[k + 1].sample;
        && s.block < t.block < |seg.blocks|
        && Skipped(seg, track, s.block + 1, t.block)
        && s.duration == Some(NsToRefTime(seg.blocks[t.block].timeNs - seg.blocks[s.block].timeNs))
        && !t.discontinuity
  {
    if n > 1 {
      var (o, c') := Populate(seg, track, prerollNs, c);
      PullUnfold(seg, track, prerollNs, c, n);
      PullUnfold(seg, track, prerollNs, c', n - 1);
      ConsecutiveSamples(seg, track, prerollNs, c', n - 1);
    }
  }

  /**
   * After Start or Seek (flag set) the first call that produces a sample marks
   * it as a discontinuity, and no later sample is marked; with the flag clear
   * no sample is marked at all.
   */
  lemma DiscontinuityIsOneShot(seg: Segment, track: int, prerollNs: int, c: Cursor, n: nat)
    requires WellFormed(seg, track)
    requires CursorValid(seg, track, c.curr.entry)
    ensures var outs := Pull(seg, track, prerollNs, c, n);
      forall k :: 0 <= k < n && outs[k].Produced? ==>
        (outs[k].sample.discontinuity <==> k == 0 && c.discontinuity)
  {
    var outs := Pull(seg, track, prerollNs, c, n);
    StallsRepeat(seg, track, prerollNs, c, n);
    ConsecutiveSamples(seg, track, prerollNs, c, n);
    if n > 0 {
      PullUnfold(seg, track, prerollNs, c, n);
    }
    forall k | 0 < k < n && outs[k].Produced?
      ensures !outs[k].sample.discontinuity
    {
      assert outs[k - 1].Produced?;
    }
  }

  /** The blocks of produced samples strictly increase, so their sample times never decrease. */
  lemma {:induction false} SampleTimesNonDecreasing(seg: Segment, track: int, prerollNs: int, c: Cursor, n: nat)
    requires WellFormed(seg, track)
    requires CursorValid(seg, track, c.curr.entry)
    decreases n
    ensures var outs := Pull(seg, track, prerollNs, c, n);
      forall i, j :: 0 <= i < j < n && outs[i].Produced? && outs[j].Produced? ==>
        && outs[i].sample.block < outs[j].sample.block
        && outs[i].sample.time <= outs[j].sample.time
  {
    if n > 0 {
      var outs := Pull(seg, track, prerollNs, c, n);
      var (o, c') := Populate(seg, track, prerollNs, c);
      var rest := Pull(seg, track, prerollNs, c', n - 1);
      PullUnfold(seg, track, prerollNs, c, n);
      SampleTimesNonDecreasing(seg, track, prerollNs, c', n - 1);
      SamplesComeFromTrack(seg, track, prerollNs, c, n);
      SamplesComeFromTrack(seg, track, prerollNs, c', n - 1);
      forall j | 0 < j < n && outs[0].Produced? && outs[j].Produced?
        ensures outs[0].sample.block < outs[j].sample.block
        ensures outs[0].sample.time <= outs[j].sample.time
      {
        assert outs[j] == rest[j - 1];
        var a, b := outs[0].sample.block, outs[j].sample.block;
        assert a == c.curr.entry.index < c'.curr.entry.index <= b;
        NsToRefTimeMonotone(seg.blocks[a].timeNs, seg.blocks[b].timeNs);
      }
    }
  }

  /**
   * A sample without a duration is the last one of the track: every later
   * call reports "no sample".
   */
  lemma {:induction false} LastSampleEndsTrack(seg: Segment, track: int, prerollNs: int, c: Cursor, n: nat)
    requires WellFormed(seg, track)
    requires CursorValid(seg, track, c.curr.entry)
    decreases n
    ensures var outs := Pull(seg, track, prerollNs, c, n);
      forall i, j :: 0 <= i < j < n && outs[i].Produced? && outs[i].sample.duration.None? ==>
        outs[j].NoSample?
  {
    if n > 0 {
      var outs := Pull(seg, track, prerollNs, c, n);
      var (o, c') := Populate(seg, track, prerollNs, c);
      var rest := Pull(seg, track, prerollNs, c', n - 1);
      PullUnfold(seg, track, prerollNs, c, n);
      LastSampleEndsTrack(seg, track, prerollNs, c', n - 1);
      StallsRepeat(seg, track, prerollNs, c', n - 1);
      if o.Produced? && o.sample.duration.None? && n > 1 {
        PullUnfold(seg, track, prerollNs, c', n - 1);
        assert rest[0].NoSample?;
      }
    }
  }

  /** One call that did not underflow gives the same outcome and state once more data has arrived. */
  lemma PopulateStable(seg: Segment, more: Segment, track: int, prerollNs: int, c: Cursor)
    requires WellFormed(seg, track)
    requires Extends(seg, more)
    requires CursorValid(seg, track, c.curr.entry)
    requires !Populate(seg, track, prerollNs, c).0.BufferUnderflow?
    ensures WellFormed(more, track) && CursorValid(more, track, c.curr.entry)
    ensures Populate(more, track, prerollNs, c) == Populate(seg, track, prerollNs, c)
  {
  }

  /**
   * Once more data has arrived, a run from the same state repeats every
   * outcome that was not an underflow: a sample does not depend on how much
   * of the segment happened to be loaded when it was produced, and a retry
   * after an underflow yields what a call on the new data yields.
   */
  lemma {:induction false} MoreDataKeepsOutcomes(seg: Segment, more: Segment, track: int, prerollNs: int, c: Cursor, n: nat)
    requires WellFormed(seg, track)
    requires Extends(seg, more)
    requires CursorValid(seg, track, c.curr.entry)
    decreases n
    ensures WellFormed(more, track) && CursorValid(more, track, c.curr.entry)
    ensures var outs, outs' := Pull(seg, track, prerollNs, c, n), Pull(more, track, prerollNs, c, n);
      forall k :: 0 <= k < n && !outs[k].BufferUnderflow? ==> outs'[k] == outs[k]
  {
    assert WellFormed(more, track);
    if n > 0 {
      var outs := Pull(seg, track, prerollNs, c, n);
      var outs' := Pull(more, track, prerollNs, c, n);
      StallsRepeat(seg, track, prerollNs, c, n);
      if !outs[0].BufferUnderflow? {
        var (o, c') := Populate(seg, track, prerollNs, c);
        PullUnfold(seg, track, prerollNs, c, n);
        PullUnfold(more, track, prerollNs, c, n);
        PopulateStable(seg, more, track, prerollNs, c);
        MoreDataKeepsOutcomes(seg, more, track, prerollNs, c', n - 1);
        var rest, rest' := Pull(seg, track, prerollNs, c', n - 1), Pull(more, track, prerollNs, c', n - 1);
        forall k | 0 < k < n && !outs[k].BufferUnderflow?
          ensures outs'[k] == outs[k]
        {
          assert outs[k] == rest[k - 1] && outs'[k] == rest'[k - 1];
        }
      }
    }
  }
}
