# DJ application decks — a Dafny model

This project models the control logic of a two-deck DJ application built on
JUCE. Each deck (`DeckGUI`) has play, pause and next buttons, volume, speed and
position sliders, an "up next" table that shows the deck's queue of file
paths, and a waveform view (`WaveformDisplay`) whose playhead is moved by a
100 ms timer. A deck drives one audio player (`DJAudioPlayer`), which wraps a
JUCE transport source (gain, position, start and stop) and a resampling source
(playback ratio).

The model is split by the program's own structure:

- `player.dfy` (module `Player`): class `DJAudioPlayer`. Its transport and
  resampler are represented as six abstract fields: gain, ratio, position,
  length, playing and the installed source. Every method is specified by a
  pure transition function on the `Transport` record (`AfterSetGain`,
  `AfterLoad`, ...). The invariant `Consistent` holds for every reachable
  player, and the methods preserve it.
- `doubles.dfy` (module `Doubles`): an IEEE-style `Double` with finite
  values, infinities and NaN. It exists because `getPositionRelative` divides
  position by length with no guard, so a deck with nothing loaded reports
  0 / 0 = NaN.
- `waveform.dfy` (module `Waveform`): class `WaveformDisplay`. It covers the
  `fileLoaded` flag and the playhead guard that takes a new position only
  when it differs from the current one and is greater than zero.
- `path_name.dfy` (module `PathName`): the file name an "up next" row shows.
  It models `std::string::find_last_of`, `substr` and `std::size_t`
  wrap-around (modulo 2^64, with npos as the largest value), and proves what
  the computation yields in every case: no backslash, no dot, and a dot
  before the last backslash.
- `up_next.dfy` (module `UpNext`): the deck queues, held by the playlist
  object and consumed from the front.
- `deck.dfy` (module `Deck`): class `DeckGUI`. It covers button handling with
  the LOAD/NEXT label, slider routing and the slider ranges and defaults,
  the row count, the cell text and the timer.

Notable behaviour of the code, which the model keeps:

- `setSpeed` accepts a ratio of 0, as its header comment's "0 to 100"
  says. The guard rejects only values below 0 or above 100. JUCE's
  resampler itself expects a ratio above 0 (it asserts so in debug
  builds); the model follows the guard.
- `setPosition` forwards its argument with no clamp. The relative seek is the
  only path that keeps positions inside the track.
- `getPositionRelative` has no zero-length case. With nothing loaded it
  yields NaN, and the waveform's guard then drops that value.
- The next button removes the front queue entry even when the file cannot be
  decoded.
- Loading a track does not reset the waveform playhead. The new track reports
  0 (or NaN when it is empty), which the guard ignores, so the old playhead
  stays until playback moves (`Deck.TimerKeepsPlayheadAfterLoad`).
- The waveform's `pos != position` test adds nothing to `pos > 0`: an equal
  value would change nothing anyway (`Waveform.PlayheadAfter`).

Behaviour of the JUCE library that the methods rely on is stated as
assumptions in the transition functions, not derived:

- a new player has gain 1 and ratio 1;
- installing a source stops the transport, moves it to position 0 and sets
  the new length;
- `start` and `setPosition` do nothing while no source is installed;
- `stop` only clears the playing flag.

## Model

| member | source | states |
|---|---|---|
| Doubles.Quotient | Source/DJAudioPlayer.cpp:103 | division of doubles: exact for a non-zero divisor, NaN for 0 / 0, a signed infinity for x / 0 |
| Player.GainAccepted | Source/DJAudioPlayer.cpp:64 | the gain guard accepts exactly the values in [0, 1], both ends included |
| Player.RatioAccepted | Source/DJAudioPlayer.cpp:72 | the speed guard accepts exactly the ratios in [0, 100], both ends included |
| Player.RelativeAccepted | Source/DJAudioPlayer.cpp:85 | the relative-seek guard accepts exactly the fractions in [0, 1], both ends included |
| Player.Consistent | Source/DJAudioPlayer.cpp:63-99 | the invariant every transition preserves: gain in [0, 1], ratio in [0, 100], and a deck with no track has zero length, sits at 0 and is not playing |
| Player.InitialConsistent | Source/DJAudioPlayer.cpp:28 | a new player satisfies the invariant, has no source and is not playing |
| Player.AfterLoad | Source/DJAudioPlayer.cpp:49-61 | a null reader changes nothing; a reader installs the URL with the track's length, stopped at 0; gain and ratio survive; the invariant is preserved |
| Player.AfterSetGain | Source/DJAudioPlayer.cpp:63-69 | a gain in [0, 1] is applied, any other is ignored; only the gain changes; the invariant is preserved |
| Player.AfterSetSpeed | Source/DJAudioPlayer.cpp:71-77 | a ratio in [0, 100] is applied, any other is ignored; only the ratio changes; the invariant is preserved |
| Player.AfterSetPosition | Source/DJAudioPlayer.cpp:79-82 | the position becomes the argument, unclamped, when a source is installed and is unchanged otherwise; nothing else changes |
| Player.AfterSetPositionRelative | Source/DJAudioPlayer.cpp:84-91 | a fraction outside [0, 1] changes nothing; otherwise the position becomes length × fraction and lies within the track; only the position changes |
| Player.Scaled | Source/DJAudioPlayer.cpp:88 | the seconds a fraction stands for is length × fraction, and lies inside the track for a fraction in [0, 1] |
| Player.AfterStart | Source/DJAudioPlayer.cpp:93-95 | after start the deck plays exactly when a source is installed; only the playing flag changes |
| Player.AfterStop | Source/DJAudioPlayer.cpp:97-99 | after stop the deck is not playing; the position is kept |
| Player.RelativePosition | Source/DJAudioPlayer.cpp:101-104 | position / length for a positive length; NaN for a deck with nothing loaded |
| Player.RelativePositionInUnit | Source/DJAudioPlayer.cpp:101-104 | with a positive length and the playhead inside the track, the relative position is a finite value in [0, 1] |
| Player.RelativePositionRoundTrip | Source/DJAudioPlayer.cpp:84-104 | seeking to an accepted fraction and reading the relative position back returns that fraction |
| Player.StartIdempotent | Source/DJAudioPlayer.cpp:93-95 | starting twice equals starting once |
| Player.DJAudioPlayer.constructor | Source/DJAudioPlayer.cpp:28 | the new player is in the initial state and satisfies the invariant |
| Player.DJAudioPlayer.LoadURL | Source/DJAudioPlayer.cpp:49-61 | the new state is AfterLoad of the old; the invariant is kept |
| Player.DJAudioPlayer.SetGain | Source/DJAudioPlayer.cpp:63-69 | the new state is AfterSetGain of the old; the invariant is kept |
| Player.DJAudioPlayer.SetSpeed | Source/DJAudioPlayer.cpp:71-77 | the new state is AfterSetSpeed of the old; the invariant is kept |
| Player.DJAudioPlayer.SetPosition | Source/DJAudioPlayer.cpp:79-82 | the new state is AfterSetPosition of the old; the invariant is kept |
| Player.DJAudioPlayer.SetPositionRelative | Source/DJAudioPlayer.cpp:84-91 | the new state is AfterSetPositionRelative of the old, reached through SetPosition; the invariant is kept |
| Player.DJAudioPlayer.Start | Source/DJAudioPlayer.cpp:93-95 | the new state is AfterStart of the old; the invariant is kept |
| Player.DJAudioPlayer.Stop | Source/DJAudioPlayer.cpp:97-99 | the new state is AfterStop of the old; the invariant is kept |
| Player.DJAudioPlayer.GetPositionRelative | Source/DJAudioPlayer.cpp:101-104 | returns the relative position of the current state, a fraction in [0, 1] whenever the playhead is inside a non-empty track |
| Waveform.PlayheadAfter | Source/WaveformDisplay.cpp:62-67 | the playhead takes a value exactly when it is greater than zero; zero, negatives and NaN leave it unchanged; non-negativity and positivity are preserved |
| Waveform.PlayheadNeverNegative | Source/WaveformDisplay.cpp:62-67 | from a non-negative playhead no sequence of updates makes it negative or NaN |
| Waveform.PlayheadStaysPositive | Source/WaveformDisplay.cpp:62-67 | once positive, the playhead stays positive under any sequence of updates |
| Waveform.LastPositiveOr | Source/WaveformDisplay.cpp:62-67 | an independent description of the final playhead: the last update greater than zero, or the starting value when no update is |
| Waveform.PlayheadAfterAllSnoc | Source/WaveformDisplay.cpp:62-67 | one more update at the end of a series is one more application of the update rule |
| Waveform.PlayheadFollowsLastPositive | Source/WaveformDisplay.cpp:62-67 | last positive update wins: after any series of updates the playhead equals LastPositiveOr |
| Waveform.PlayheadIdempotent | Source/WaveformDisplay.cpp:62-67 | repeating an update has no further effect |
| Waveform.WaveformDisplay.constructor | Source/WaveformDisplay.cpp:15-20 | a new view has no file loaded and its playhead at 0 |
| Waveform.WaveformDisplay.LoadURL | Source/WaveformDisplay.cpp:46-55 | the loaded flag becomes the thumbnail's answer for the URL; the playhead is untouched |
| Waveform.WaveformDisplay.SetPositionRelative | Source/WaveformDisplay.cpp:62-67 | the playhead becomes PlayheadAfter of the old playhead; the loaded flag is untouched |
| PathName.SizeT | Source/DeckGUI.cpp:190-193 | a result stored in a std::size_t is the value reduced modulo 2^64, in [0, 2^64) |
| PathName.SizeTInRange | Source/DeckGUI.cpp:190-193 | reducing a value within two moduli of the range adds or subtracts the right number of moduli |
| PathName.FindLastOf | Source/DeckGUI.cpp:190-191 | npos exactly when the character is absent; otherwise an index holding the character with no later occurrence |
| PathName.FindLastOfIsLast | Source/DeckGUI.cpp:190-191 | an occurrence with none after it is the one find_last_of returns |
| PathName.Substr | Source/DeckGUI.cpp:192-193 | substr yields the text at pos, `count` characters long or cut at the end of the string |
| PathName.StartAfterLast | Source/DeckGUI.cpp:192-193 | the wrapped start index find_last_of + 1 never lies past the end of the path |
| PathName.StartAfterLastCases | Source/DeckGUI.cpp:192-193 | the start index is 0 when the character is absent, because npos + 1 wraps, and one past the occurrence otherwise |
| PathName.Extension | Source/DeckGUI.cpp:191-192 | the extension substr, wrap-around included, is the text after the last dot, or the whole path when there is no dot |
| PathName.NameStart | Source/DeckGUI.cpp:190 | the name starts just after a backslash, or at 0, with no backslash at or after it: after the last backslash, or at 0 when there is none |
| PathName.NameEnd | Source/DeckGUI.cpp:191-193 | the name ends at a dot with no dot after it, or at the end of the path when no dot follows the start |
| PathName.NameCount | Source/DeckGUI.cpp:193 | the wrapped name length equals NameEnd - NameStart when a dot follows the start, and reaches past the end of the path otherwise |
| PathName.DisplayName | Source/DeckGUI.cpp:190-193 | in every case, npos and wrap-around included, the row text is the path from NameStart to NameEnd, and it never contains a backslash |
| PathName.DisplayNameRoundTrip | Source/DeckGUI.cpp:190-193 | for a path `dir\name.ext` the row text is `name`, the extension is `ext`, and directory + name + "." + extension rebuilds the path |
| UpNext.PopFront | Source/DeckGUI.cpp:126-141 | an empty queue yields nothing and stays empty; otherwise the front comes out and the rest keeps its order |
| UpNext.PopManyKeepsOrder | Source/DeckGUI.cpp:126-141 | successive pops hand out the queue in order, each entry once: taken + left is the original queue |
| UpNext.PopAllThenNothing | Source/DeckGUI.cpp:126-141 | popping a queue as many times as it has entries empties it, and a further pop yields nothing |
| Deck.Setup | Source/DeckGUI.cpp:55-76 | the ranges and defaults of the position (0..1, 0), volume (0..1, 0.5) and speed (0.5..2, 1) sliders; each default lies in its range |
| Deck.AfterSliderChange | Source/DeckGUI.cpp:155-165 | volume goes to the gain, speed to the ratio and position to the relative seek: for every value, an accepted one is applied (position = length × v) and a rejected one changes nothing; each touches only its own field; the invariant is preserved |
| Deck.SliderValuesAccepted | Source/DeckGUI.cpp:55-76 | every value a slider's range allows passes the guard of the setter it drives |
| Deck.SliderChangeApplied | Source/DeckGUI.cpp:155-165 | every slider move within range takes effect exactly: gain = v, ratio = v, or position = length × v |
| Deck.LabelAfterNext | Source/DeckGUI.cpp:144-148 | a LOAD label becomes NEXT; any other label is kept |
| Deck.AfterNext | Source/DeckGUI.cpp:125-149 | a next press preserves the invariant, gain and ratio; a decodable front entry is installed with its length at position 0; with an empty queue or an undecodable entry the first press changes nothing and later presses only start the deck |
| Deck.FirstPressDoesNotStart | Source/DeckGUI.cpp:125-149 | after the first press the deck plays exactly when it was already playing and no new track was installed |
| Deck.LaterPressStarts | Source/DeckGUI.cpp:125-149 | after a later press the deck plays exactly when it has a source, even with an empty queue, and a newly loaded track plays from 0 |
| Deck.LabelSettles | Source/DeckGUI.cpp:144-148 | after any press the label reads NEXT and further presses keep it |
| Deck.TimerIgnoresEmptyDeck | Source/DeckGUI.cpp:198-200 | with nothing loaded the player reports NaN and the timer leaves the playhead where it is |
| Deck.TimerKeepsPlayheadAfterLoad | Source/DeckGUI.cpp:198-200 | right after a successful load the timer does not move the playhead |
| Deck.TimerFollowsPlayer | Source/DeckGUI.cpp:198-200 | with the position inside a non-empty track and past its start, the timer sets the playhead to exactly position / length |
| Deck.DeckGUI.constructor | Source/DeckGUI.cpp:30-92 | the deck keeps the player, playlist and channel it is given, owns a fresh empty waveform view, and its next button reads LOAD |
| Deck.DeckGUI.ButtonClicked | Source/DeckGUI.cpp:118-153 | play starts and pause stops the player; next pops this deck's queue front, loads it into the player and the waveform, leaves the other queue alone, flips LOAD to NEXT or else starts the player |
| Deck.DeckGUI.SliderValueChanged | Source/DeckGUI.cpp:155-165 | the player's new state is AfterSliderChange of the old |
| Deck.DeckGUI.GetNumRows | Source/DeckGUI.cpp:167-174 | the row count is the size of the left queue on channel 0 and of the right queue on channel 1 |
| Deck.DeckGUI.CellText | Source/DeckGUI.cpp:180-196 | a row shows the queued path from after its last backslash to its last dot, and never a backslash |
| Deck.DeckGUI.TimerCallback | Source/DeckGUI.cpp:198-200 | the waveform playhead becomes PlayheadAfter of the player's relative position; the loaded flag is untouched |

## Left out

- Audio rendering is not modelled: `prepareToPlay`, `getNextAudioBlock` and `releaseResources`. Playback changes the transport as it runs: it advances the position and clears the playing flag at the end of the track. The model has no step for these effects, so the position changes only through seeks and loads.
- The mixer, the main component and the window are not part of this model.
- Painting and layout are not modelled: `paint`, `resized`, `paintRowBackground`, colours, and the `drawText` call that shows the cell text.
- The playlist component's library, search and import code (`PlaylistComponent.cpp`) is left out. Only its two queues are modelled, as sequence fields of `PlaylistComponent`. The header in the repository does not declare them.
- Threads are not modelled. The timer, the audio callback and the GUI are treated as taking turns.
- Player.AfterSetPosition: the transport's rounding of a position to a whole sample is not modelled.
- Player.AfterSetGain: the transport stores the gain as a single-precision float, so the stored value is the argument rounded to float. The model stores the argument exactly.
- Player.DJAudioPlayer.SetGain: inputs are reals, so a NaN argument, which would pass the source's guards, is not modelled. The same holds for SetSpeed and SetPositionRelative.
- Player.AfterLoad: the decoder is a parameter. The model uses the track length it reports, or None when no reader can be made.
- Floating-point rounding in `length * pos` and in `position / length` is not modelled. Finite doubles are exact reals.
- Deck.DeckGUI.constructor: the notifications that `setValue` sends to the deck's own slider listener while it is being built are not modelled.
- The `upNext.updateContent()` refresh and the waveform `repaint()` calls have no visible state in the model.
- Waveform.WaveformDisplay.LoadURL: the thumbnail is a parameter, standing for the answer `setSource` gives for the URL. Clearing and drawing the thumbnail are left out.
- Deck.DeckGUI.GetNumRows: channels other than 0 and 1 are excluded, because the source function then returns no value.
- Deck.DeckGUI.CellText: rows outside the queue are excluded, because indexing past the end of the vector is undefined.
- Deck.DeckGUI.CellText: channels other than 0 and 1 are excluded. The source would then compute the name of an empty path.
- The conversion of a queued path to a JUCE `URL` is not modelled. The player and waveform receive the path itself.
