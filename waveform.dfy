/** The waveform view's own state (WaveformDisplay): whether the thumbnail
    accepted the last file, and the relative playhead position it draws.
    The thumbnail itself and all painting are outside the model; the
    playhead is a `Double` because the deck's timer feeds it the raw result
    of a division that may be NaN. */
module Waveform {
  import opened Doubles

  /** The playhead update rule: a new value is taken only when it differs
      from the current one and is greater than zero; anything else,
      including NaN, zero and negative values, leaves the playhead where it
      is. */
  function PlayheadAfter(current: Double, pos: Double): (next: Double)
    ensures next == pos || next == current
    ensures IsGreaterThanZero(pos) ==> next == pos
    ensures !IsGreaterThanZero(pos) ==> next == current
    ensures IsNonNegative(current) ==> IsNonNegative(next)
    ensures IsGreaterThanZero(current) ==> IsGreaterThanZero(next)
  {
    if NotEqual(pos, current) && IsGreaterThanZero(pos) then pos else current
  }

  /** The playhead after a series of updates, oldest first. */
  function PlayheadAfterAll(current: Double, updates: seq<Double>): (last: Double)
    decreases |updates|
  {
    if updates == [] then current
    else PlayheadAfterAll(PlayheadAfter(current, updates[0]), updates[1..])
  }

  /** Starting from a non-negative playhead, no series of updates makes it
      negative or NaN. */
  lemma {:induction false} PlayheadNeverNegative(current: Double, updates: seq<Double>)
    requires IsNonNegative(current)
    ensures IsNonNegative(PlayheadAfterAll(current, updates))
    decreases |updates|
  {
    if updates != [] {
      PlayheadNeverNegative(PlayheadAfter(current, updates[0]), updates[1..]);
    }
  }

  /** Once the playhead is positive it stays positive: non-positive inputs
      are ignored. */
  lemma {:induction false} PlayheadStaysPositive(current: Double, updates: seq<Double>)
    requires IsGreaterThanZero(current)
    ensures IsGreaterThanZero(PlayheadAfterAll(current, updates))
    decreases |updates|
  {
    if updates != [] {
      PlayheadStaysPositive(PlayheadAfter(current, updates[0]), updates[1..]);
    }
  }

  /** An independent description of where the playhead ends: the last
      update greater than zero, or the starting value when there is none. */
  function LastPositiveOr(current: Double, updates: seq<Double>): (last: Double)
    ensures (forall i :: 0 <= i < |updates| ==> !IsGreaterThanZero(updates[i])) ==> last == current
    ensures (exists i :: 0 <= i < |updates| && IsGreaterThanZero(updates[i])) ==>
      exists i :: 0 <= i < |updates| && last == updates[i] && IsGreaterThanZero(updates[i])
        && forall j :: i < j < |updates| ==> !IsGreaterThanZero(updates[j])
    decreases |updates|
  {
    if updates == [] then current
    else
      var n := |updates| - 1;
      if IsGreaterThanZero(updates[n]) then updates[n]
      else
        var init := updates[..n];
        var r := LastPositiveOr(current, init);
        assert forall i :: 0 <= i < n ==> init[i] == updates[i];
        r
  }

  /** Updating one more time is one more PlayheadAfter at the end. */
  lemma {:induction false} PlayheadAfterAllSnoc(current: Double, updates: seq<Double>, pos: Double)
    ensures PlayheadAfterAll(current, updates + [pos]) == PlayheadAfter(PlayheadAfterAll(current, updates), pos)
    decreases |updates|
  {
    if updates == [] {
      assert [] + [pos] == [pos];
      assert [pos][1..] == [];
    } else {
      assert (updates + [pos])[1..] == updates[1..] + [pos];
      PlayheadAfterAllSnoc(PlayheadAfter(current, updates[0]), updates[1..], pos);
    }
  }

  /** Last positive update wins: after any series of updates the playhead
      is the last update greater than zero, or where it started when no
      update was. */
  lemma {:induction false} PlayheadFollowsLastPositive(current: Double, updates: seq<Double>)
    ensures PlayheadAfterAll(current, updates) == LastPositiveOr(current, updates)
    decreases |updates|
  {
    if updates != [] {
      var n := |updates| - 1;
      var init := updates[..n];
      assert updates == init + [updates[n]];
      PlayheadAfterAllSnoc(current, init, updates[n]);
      PlayheadFollowsLastPositive(current, init);
    }
  }

  /** Two updates with the same value have the effect of one. */
  lemma PlayheadIdempotent(current: Double, pos: Double)
    ensures PlayheadAfter(PlayheadAfter(current, pos), pos) == PlayheadAfter(current, pos)
  {
  }

  class WaveformDisplay {
    var fileLoaded: bool
    var position: Double

    predicate Valid()
      reads this
    {
      IsNonNegative(position)
    }

    /** Nothing loaded and the playhead at zero. */
    constructor ()
      ensures Valid()
      ensures !fileLoaded && position == Finite(0.0)
    {
      fileLoaded := false;
      position := Finite(0.0);
    }

    /** `thumbnailAccepts` stands for the thumbnail's answer to setSource
        for a URL; the flag records it and the playhead is untouched. */
    method LoadURL(url: string, thumbnailAccepts: string -> bool)
      requires Valid()
      modifies this
      ensures Valid()
      ensures fileLoaded == thumbnailAccepts(url)
      ensures position == old(position)
    {
      fileLoaded := thumbnailAccepts(url);
    }

    method SetPositionRelative(pos: Double)
      requires Valid()
      modifies this
      ensures Valid()
      ensures position == PlayheadAfter(old(position), pos)
      ensures fileLoaded == old(fileLoaded)
    {
      if NotEqual(pos, position) && IsGreaterThanZero(pos) {
        position := pos;
      }
    }
  }
}
