/** One deck's playback control surface (DJAudioPlayer).

    The JUCE transport and resampler the player drives are modelled as an
    abstract record, `Transport`: the gain of the transport source, the
    ratio of the resampling source, the playhead position and track length
    in seconds, whether the transport is playing, and the URL of the reader
    source currently installed (None before the first successful load).
    The doubles of the source become reals: the player only compares and
    multiplies them. */
module Player {
  import opened Wrappers
  import opened Doubles

  /** The bounds the validated setters check, both ends accepted. */
  const MinGain: real := 0.0
  const MaxGain: real := 1.0
  const MinRatio: real := 0.0
  const MaxRatio: real := 100.0

  /** Guards of setGain, setSpeed and setPositionRelative: a value is
      rejected when it is below the lower or above the upper bound, so both
      bounds themselves are accepted. */
  predicate GainAccepted(g: real)
    ensures GainAccepted(g) <==> MinGain <= g <= MaxGain
  {
    !(g < MinGain || g > MaxGain)
  }

  predicate RatioAccepted(r: real)
    ensures RatioAccepted(r) <==> MinRatio <= r <= MaxRatio
  {
    !(r < MinRatio || r > MaxRatio)
  }

  predicate RelativeAccepted(p: real)
    ensures RelativeAccepted(p) <==> 0.0 <= p <= 1.0
  {
    !(p < 0.0 || p > 1.0)
  }

  /** A track length as a decoder reports it. */
  type Seconds = r: real | r >= 0.0

  datatype Transport = Transport(
    gain: real,
    ratio: real,
    position: real,
    length: real,
    playing: bool,
    source: Option<string>)

  /** What holds of every reachable deck: gain and ratio are values the
      setters accept, and a deck with no track has zero length, sits at
      zero and is not playing. */
  predicate Consistent(t: Transport)
    ensures Consistent(t) ==> 0.0 <= t.gain <= 1.0 && 0.0 <= t.ratio <= 100.0
    ensures Consistent(t) && t.source.None? ==> t.position == t.length == 0.0 && !t.playing
  {
    && GainAccepted(t.gain)
    && RatioAccepted(t.ratio)
    && t.length >= 0.0
    && (t.source.None? ==> t.length == 0.0 && t.position == 0.0 && !t.playing)
  }

  /** A freshly constructed player: unit gain, unit ratio, nothing loaded. */
  const Initial: Transport := Transport(1.0, 1.0, 0.0, 0.0, false, None)

  lemma InitialConsistent()
    ensures Consistent(Initial)
    ensures Initial.source.None? && !Initial.playing
  {
  }

  /** loadURL: a null reader (None) leaves the deck exactly as it was; a
      reader installs a new source, which the transport opens stopped at
      position zero with the new track's length. Gain and ratio belong to
      the transport and resampler, so they survive the load. */
  function AfterLoad(t: Transport, url: string, reader: Option<Seconds>): (t': Transport)
    ensures reader.None? ==> t' == t
    ensures reader.Some? ==> t'.source == Some(url) && t'.length == reader.value
    ensures reader.Some? ==> t'.position == 0.0 && !t'.playing
    ensures t'.gain == t.gain && t'.ratio == t.ratio
    ensures Consistent(t) ==> Consistent(t')
  {
    match reader
    case None => t
    case Some(len) => t.(source := Some(url), length := len, position := 0.0, playing := false)
  }

  /** setGain: applied exactly when accepted; nothing but the gain changes. */
  function AfterSetGain(t: Transport, g: real): (t': Transport)
    ensures GainAccepted(g) ==> t'.gain == g
    ensures !GainAccepted(g) ==> t' == t
    ensures t' == t.(gain := t'.gain)
    ensures Consistent(t) ==> Consistent(t')
  {
    if GainAccepted(g) then t.(gain := g) else t
  }

  /** setSpeed: applied exactly when accepted (a ratio of 0 is accepted);
      nothing but the ratio changes. */
  function AfterSetSpeed(t: Transport, r: real): (t': Transport)
    ensures RatioAccepted(r) ==> t'.ratio == r
    ensures !RatioAccepted(r) ==> t' == t
    ensures t' == t.(ratio := t'.ratio)
    ensures Consistent(t) ==> Consistent(t')
  {
    if RatioAccepted(r) then t.(ratio := r) else t
  }

  /** setPosition: the value is forwarded unchecked and unclamped; the
      transport moves its reader there when a source is installed and
      otherwise ignores the call. */
  function AfterSetPosition(t: Transport, s: real): (t': Transport)
    ensures t.source.Some? ==> t'.position == s
    ensures t.source.None? ==> t' == t
    ensures t' == t.(position := t'.position)
    ensures Consistent(t) ==> Consistent(t')
  {
    if t.source.Some? then t.(position := s) else t
  }

  /** setPositionRelative: a fraction outside [0, 1] changes nothing;
      otherwise the playhead goes to that fraction of the track. */
  function AfterSetPositionRelative(t: Transport, p: real): (t': Transport)
    ensures !RelativeAccepted(p) ==> t' == t
    ensures Consistent(t) && RelativeAccepted(p) ==> t'.position == Scaled(t.length, p)
    ensures Consistent(t) && RelativeAccepted(p) ==> 0.0 <= t'.position <= t'.length
    ensures t' == t.(position := t'.position)
    ensures Consistent(t) ==> Consistent(t')
  {
    if RelativeAccepted(p) then AfterSetPosition(t, Scaled(t.length, p)) else t
  }

  /** The seconds a fraction of the track stands for: length × fraction,
      which lies inside the track for a fraction in [0, 1]. */
  function Scaled(length: real, p: real): (s: real)
    ensures s == length * p
    ensures length >= 0.0 && 0.0 <= p <= 1.0 ==> 0.0 <= s <= length
  {
    assert length >= 0.0 && 0.0 <= p <= 1.0 ==> length * p <= length * 1.0;
    length * p
  }

  /** start: the transport starts only when it has a source. */
  function AfterStart(t: Transport): (t': Transport)
    ensures Consistent(t) ==> (t'.playing <==> t.source.Some?)
    ensures t' == t.(playing := t'.playing)
    ensures Consistent(t) ==> Consistent(t')
  {
    if t.source.Some? then t.(playing := true) else t
  }

  /** stop: pauses; the position is kept. */
  function AfterStop(t: Transport): (t': Transport)
    ensures !t'.playing
    ensures t' == t.(playing := t'.playing)
    ensures Consistent(t) ==> Consistent(t')
  {
    t.(playing := false)
  }

  /** getPositionRelative: position / length with no guard against a zero
      length, so a deck with nothing loaded reports 0 / 0, which is NaN. */
  function RelativePosition(t: Transport): (r: Double)
    ensures t.length > 0.0 ==> r == Finite(t.position / t.length)
    ensures Consistent(t) && t.source.None? ==> r == NaN
  {
    Quotient(t.position, t.length)
  }

  /** With a positive length and the playhead inside the track the
      relative position is a fraction in [0, 1]. */
  lemma RelativePositionInUnit(t: Transport)
    requires t.length > 0.0
    requires 0.0 <= t.position <= t.length
    ensures RelativePosition(t).Finite?
    ensures 0.0 <= RelativePosition(t).value <= 1.0
  {
    var q := t.position / t.length;
    assert q * t.length == t.position;
  }

  /** Seeking to a fraction and reading the fraction back gives the same
      fraction (in exact arithmetic). */
  lemma RelativePositionRoundTrip(t: Transport, p: real)
    requires Consistent(t)
    requires t.length > 0.0
    requires RelativeAccepted(p)
    ensures RelativePosition(AfterSetPositionRelative(t, p)) == Finite(p)
  {
    var t' := AfterSetPositionRelative(t, p);
    assert t'.length == t.length && t'.position == t.length * p;
    assert (t.length * p) / t.length == p;
  }

  /** Pressing start twice is the same as pressing it once. */
  lemma StartIdempotent(t: Transport)
    ensures AfterStart(AfterStart(t)) == AfterStart(t)
  {
  }

  /** The player object: the six abstract fields of its transport and
      resampler, updated in place by the control methods. */
  class DJAudioPlayer {
    var gain: real
    var ratio: real
    var position: real
    var length: real
    var playing: bool
    var source: Option<string>

    function State(): Transport
      reads this
    {
      Transport(gain, ratio, position, length, playing, source)
    }

    predicate Valid()
      reads this
    {
      Consistent(State())
    }

    constructor ()
      ensures Valid()
      ensures State() == Initial
    {
      gain, ratio := 1.0, 1.0;
      position, length := 0.0, 0.0;
      playing := false;
      source := None;
    }

    /** `reader` is what the format manager makes of the URL: the decoded
        track's length, or None for a file it cannot read. */
    method LoadURL(url: string, reader: Option<Seconds>)
      requires Valid()
      modifies this
      ensures Valid()
      ensures State() == AfterLoad(old(State()), url, reader)
    {
      if reader.Some? {
        source := Some(url);
        length := reader.value;
        position := 0.0;
        playing := false;
      }
    }

    method SetGain(g: real)
      requires Valid()
      modifies this
      ensures Valid()
      ensures State() == AfterSetGain(old(State()), g)
    {
      if g < MinGain || g > MaxGain {
        // rejected: a warning goes to the console and nothing changes
      } else {
        gain := g;
      }
    }

    method SetSpeed(r: real)
      requires Valid()
      modifies this
      ensures Valid()
      ensures State() == AfterSetSpeed(old(State()), r)
    {
      if r < MinRatio || r > MaxRatio {
        // rejected: a warning goes to the console and nothing changes
      } else {
        ratio := r;
      }
    }

    method SetPosition(s: real)
      requires Valid()
      modifies this
      ensures Valid()
      ensures State() == AfterSetPosition(old(State()), s)
    {
      if source.Some? {
        position := s;
      }
    }

    method SetPositionRelative(p: real)
      requires Valid()
      modifies this
      ensures Valid()
      ensures State() == AfterSetPositionRelative(old(State()), p)
    {
      if p < 0.0 || p > 1.0 {
        // rejected: a warning goes to the console and nothing changes
      } else {
        var seconds := length * p;
        SetPosition(seconds);
      }
    }

    method Start()
      requires Valid()
      modifies this
      ensures Valid()
      ensures State() == AfterStart(old(State()))
    {
      if source.Some? {
        playing := true;
      }
    }

    method Stop()
      requires Valid()
      modifies this
      ensures Valid()
      ensures State() == AfterStop(old(State()))
    {
      playing := false;
    }

    method GetPositionRelative() returns (r: Double)
      ensures r == RelativePosition(State())
      ensures length > 0.0 && 0.0 <= position <= length ==> r.Finite? && 0.0 <= r.value <= 1.0
    {
      r := Quotient(position, length);
      if length > 0.0 && 0.0 <= position <= length {
        RelativePositionInUnit(State());
      }
    }
  }
}
