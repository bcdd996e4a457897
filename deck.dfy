/** One deck's controls (DeckGUI): play, pause and next buttons, the
    volume, speed and position sliders, the "up next" table over the deck's
    queue, and the timer that moves the waveform playhead. The deck drives
    a player it does not own, consumes a queue held by the shared playlist,
    and owns its waveform view. Layout, painting and colours are not
    modelled. */
module Deck {
  import opened Wrappers
  import opened Doubles
  import opened Player
  import opened Waveform
  import opened UpNext
  import opened PathName

  datatype Button = PlayButton | StopButton | NextButton

  datatype Slider = VolumeSlider | SpeedSlider | PositionSlider

  /** A slider's range and the value it starts at. */
  datatype SliderSetup = SliderSetup(min: real, max: real, initial: real)

  /** The ranges and defaults the constructor gives the sliders (the
      position slider keeps the toolkit's default value of 0). */
  function Setup(s: Slider): (r: SliderSetup)
    ensures r.min <= r.initial <= r.max
  {
    match s
    case VolumeSlider => SliderSetup(0.0, 1.0, 0.5)
    case SpeedSlider => SliderSetup(0.5, 2.0, 1.0)
    case PositionSlider => SliderSetup(0.0, 1.0, 0.0)
  }

  /** The player call a slider change is routed to: volume to the gain,
      speed to the ratio, position to the relative seek; each touches only
      its own field. */
  function AfterSliderChange(t: Transport, s: Slider, v: real): (t': Transport)
    ensures s == VolumeSlider ==> t' == t.(gain := t'.gain)
    ensures s == SpeedSlider ==> t' == t.(ratio := t'.ratio)
    ensures s == PositionSlider ==> t' == t.(position := t'.position)
    ensures s == VolumeSlider ==> (GainAccepted(v) ==> t'.gain == v) && (!GainAccepted(v) ==> t' == t)
    ensures s == SpeedSlider ==> (RatioAccepted(v) ==> t'.ratio == v) && (!RatioAccepted(v) ==> t' == t)
    ensures s == PositionSlider ==>
      (Consistent(t) && RelativeAccepted(v) ==> t'.position == t.length * v) && (!RelativeAccepted(v) ==> t' == t)
    ensures Consistent(t) ==> Consistent(t')
  {
    match s
    case VolumeSlider => AfterSetGain(t, v)
    case SpeedSlider => AfterSetSpeed(t, v)
    case PositionSlider => AfterSetPositionRelative(t, v)
  }

  /** Every value a slider can take lies inside what its setter accepts, so
      slider moves are never rejected. */
  lemma SliderValuesAccepted(s: Slider, v: real)
    requires Setup(s).min <= v <= Setup(s).max
    ensures s == VolumeSlider ==> GainAccepted(v)
    ensures s == SpeedSlider ==> RatioAccepted(v)
    ensures s == PositionSlider ==> RelativeAccepted(v)
  {
  }

  /** ... and therefore each slider move takes effect exactly. */
  lemma SliderChangeApplied(t: Transport, s: Slider, v: real)
    requires Consistent(t)
    requires Setup(s).min <= v <= Setup(s).max
    ensures s == VolumeSlider ==> AfterSliderChange(t, s, v).gain == v
    ensures s == SpeedSlider ==> AfterSliderChange(t, s, v).ratio == v
    ensures s == PositionSlider ==> AfterSliderChange(t, s, v).position == t.length * v
  {
    SliderValuesAccepted(s, v);
  }

  /** The next button's text: "LOAD" until the first press, "NEXT" after. */
  function LabelAfterNext(text: string): (l: string)
    ensures text == "LOAD" ==> l == "NEXT"
    ensures text != "LOAD" ==> l == text
  {
    if text == "LOAD" then "NEXT" else text
  }

  /** The player after a next press: the front of the queue, if there is
      one, is loaded; then every press but the first starts playback. */
  function AfterNext(text: string, t: Transport, front: Option<StdString>,
                     decode: string -> Option<Seconds>): (t': Transport)
    ensures Consistent(t) ==> Consistent(t')
    ensures t'.gain == t.gain && t'.ratio == t.ratio
    ensures front.None? ==> t' == if text == "LOAD" then t else AfterStart(t)
    ensures front.Some? && decode(front.value).Some? ==>
      && t'.source == Some(front.value)
      && t'.length == decode(front.value).value
      && t'.position == 0.0
    ensures front.Some? && decode(front.value).None? ==>
      t' == if text == "LOAD" then t else AfterStart(t)
  {
    var loaded := if front.Some? then AfterLoad(t, front.value, decode(front.value)) else t;
    if text == "LOAD" then loaded else AfterStart(loaded)
  }

  /** The first press never starts playback: the deck plays afterwards only
      if it was already playing and no new track replaced the old one. */
  lemma FirstPressDoesNotStart(t: Transport, front: Option<StdString>, decode: string -> Option<Seconds>)
    requires Consistent(t)
    ensures var t' := AfterNext("LOAD", t, front, decode);
      t'.playing <==> t.playing && (front.None? || decode(front.value).None?)
  {
  }

  /** Every later press starts playback whenever the deck has a track, even
      when the queue was empty; a newly loaded track starts at its
      beginning. */
  lemma LaterPressStarts(text: string, t: Transport, front: Option<StdString>,
                         decode: string -> Option<Seconds>)
    requires Consistent(t)
    requires text != "LOAD"
    ensures var t' := AfterNext(text, t, front, decode);
      && (t'.playing <==> t'.source.Some?)
      && (t.source.Some? ==> t'.playing)
      && (front.Some? && decode(front.value).Some? ==>
            t'.playing && t'.source == Some(front.value) && t'.position == 0.0)
  {
  }

  /** The label changes once: after any press it reads "NEXT" and further
      presses leave it so. */
  lemma LabelSettles(text: string)
    requires text == "LOAD" || text == "NEXT"
    ensures LabelAfterNext(text) == "NEXT"
    ensures LabelAfterNext(LabelAfterNext(text)) == LabelAfterNext(text)
  {
  }

  /** Before anything is loaded the timer reads 0 / 0 from the player; the
      NaN fails the waveform's `> 0` test, so the playhead stays put. */
  lemma TimerIgnoresEmptyDeck(t: Transport, playhead: Double)
    requires Consistent(t)
    requires t.source.None?
    ensures RelativePosition(t) == NaN
    ensures PlayheadAfter(playhead, RelativePosition(t)) == playhead
  {
  }

  /** Loading a track does not reset the waveform's playhead: the new
      track's relative position is 0 (or NaN for an empty track), which the
      waveform ignores, so the old playhead stays until playback moves. */
  lemma TimerKeepsPlayheadAfterLoad(t: Transport, url: string, reader: Option<Seconds>, playhead: Double)
    requires Consistent(t)
    requires reader.Some?
    ensures PlayheadAfter(playhead, RelativePosition(AfterLoad(t, url, reader))) == playhead
  {
  }

  /** While a track is inside its length, past its start, the timer moves
      the playhead to exactly the player's relative position. */
  lemma TimerFollowsPlayer(t: Transport, playhead: Double)
    requires t.length > 0.0
    requires 0.0 < t.position <= t.length
    ensures PlayheadAfter(playhead, RelativePosition(t)) == Finite(t.position / t.length)
    ensures IsGreaterThanZero(PlayheadAfter(playhead, RelativePosition(t)))
  {
    RelativePositionInUnit(t);
    assert t.position / t.length > 0.0;
  }

  class DeckGUI {
    const player: DJAudioPlayer
    const playlist: PlaylistComponent
    const waveform: WaveformDisplay
    /** 0 for the left deck, 1 for the right deck. */
    const channel: int
    var nextLabel: string

    predicate Valid()
      reads this, player, waveform
    {
      player.Valid() && waveform.Valid() && (nextLabel == "LOAD" || nextLabel == "NEXT")
    }

    /** This deck's queue: the left one for channel 0, the right one for
        channel 1, none for any other channel. */
    function Queue(): seq<StdString>
      reads this, playlist
    {
      if channel == 0 then playlist.playListL
      else if channel == 1 then playlist.playListR
      else []
    }

    constructor (player: DJAudioPlayer, playlist: PlaylistComponent, channel: int)
      requires player.Valid()
      ensures Valid()
      ensures this.player == player && this.playlist == playlist && this.channel == channel
      ensures nextLabel == "LOAD"
      ensures fresh(waveform) && !waveform.fileLoaded && waveform.position == Finite(0.0)
    {
      this.player := player;
      this.playlist := playlist;
      this.channel := channel;
      waveform := new WaveformDisplay();
      nextLabel := "LOAD";
    }

    /** `decode` stands for the format manager (a path's track length, or
        None when no reader can be made) and `thumbnailAccepts` for the
        waveform thumbnail's answer to a path. */
    method ButtonClicked(button: Button, decode: string -> Option<Seconds>, thumbnailAccepts: string -> bool)
      requires Valid()
      modifies this, player, playlist, waveform
      ensures Valid()
      ensures button == PlayButton ==> player.State() == AfterStart(old(player.State()))
      ensures button == StopButton ==> player.State() == AfterStop(old(player.State()))
      ensures button != NextButton ==>
        && nextLabel == old(nextLabel)
        && playlist.playListL == old(playlist.playListL)
        && playlist.playListR == old(playlist.playListR)
        && waveform.fileLoaded == old(waveform.fileLoaded)
        && waveform.position == old(waveform.position)
      ensures button == NextButton ==>
        var (front, rest) := PopFront(old(Queue()));
        && Queue() == rest
        && (channel != 0 ==> playlist.playListL == old(playlist.playListL))
        && (channel != 1 ==> playlist.playListR == old(playlist.playListR))
        && nextLabel == LabelAfterNext(old(nextLabel))
        && player.State() == AfterNext(old(nextLabel), old(player.State()), front, decode)
        && waveform.fileLoaded == (if front.Some? then thumbnailAccepts(front.value) else old(waveform.fileLoaded))
        && waveform.position == old(waveform.position)
    {
      if button == PlayButton {
        player.Start();
      }
      if button == StopButton {
        player.Stop();
      }
      if button == NextButton {
        if channel == 0 && |playlist.playListL| > 0 {
          var fileURL := playlist.playListL[0];
          player.LoadURL(fileURL, decode(fileURL));
          waveform.LoadURL(fileURL, thumbnailAccepts);
          playlist.playListL := playlist.playListL[1..];
        }
        if channel == 1 && |playlist.playListR| > 0 {
          var fileURL := playlist.playListR[0];
          player.LoadURL(fileURL, decode(fileURL));
          waveform.LoadURL(fileURL, thumbnailAccepts);
          playlist.playListR := playlist.playListR[1..];
        }
        if nextLabel == "LOAD" {
          nextLabel := "NEXT";
        } else {
          player.Start();
        }
      }
    }

    method SliderValueChanged(slider: Slider, value: real)
      requires Valid()
      modifies player
      ensures Valid()
      ensures player.State() == AfterSliderChange(old(player.State()), slider, value)
    {
      if slider == VolumeSlider {
        player.SetGain(value);
      }
      if slider == SpeedSlider {
        player.SetSpeed(value);
      }
      if slider == PositionSlider {
        player.SetPositionRelative(value);
      }
    }

    /** The number of rows of the "up next" table: the length of this deck's
        queue. Any channel but 0 and 1 falls off the end of the source
        function, so those are excluded. */
    function GetNumRows(): (n: int)
      reads this, playlist
      requires channel == 0 || channel == 1
      ensures n == |if channel == 0 then playlist.playListL else playlist.playListR|
    {
      |Queue()|
    }

    /** The text drawn in a row of the "up next" table: the queued path
        from just after its last backslash up to its last dot (or to its
        end when no dot follows the last backslash). */
    function CellText(row: int): (name: string)
      reads this, playlist
      requires channel == 0 || channel == 1
      requires 0 <= row < |Queue()|
      ensures var path := Queue()[row];
        name == path[NameStart(path)..NameEnd(path)]
      ensures forall i :: 0 <= i < |name| ==> name[i] != '\\'
    {
      DisplayName(Queue()[row])
    }

    method TimerCallback()
      requires Valid()
      modifies waveform
      ensures Valid()
      ensures waveform.position == PlayheadAfter(old(waveform.position), RelativePosition(player.State()))
      ensures waveform.fileLoaded == old(waveform.fileLoaded)
    {
      var relative := player.GetPositionRelative();
      waveform.SetPositionRelative(relative);
    }
  }
}
