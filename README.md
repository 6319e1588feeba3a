# Time-shift playback control, modelled in Dafny

This project models two small sequential control components of the GStreamer
MPEG-TS time-shifting plugin and proves properties of them.

The first is the time-shift playback controller of the example player
(`examples/video-player.py`, class `Player`). It polls the pipeline for
position, duration and the buffered range, and maps the 0..100 slider to
nanosecond times and back. It also handles:

- the pause button;
- drag-to-seek on the slider, with its refresh-timer bookkeeping;
- the "Live" button (a seek to the end of the stream);
- the end-of-stream rewind;
- overrun recovery: seek two seconds past the start of the buffered range, then force PLAYING.

The second is the lifecycle logic of the time-shift bin (`src/gsttsshifterbin.c`):

- the `initial_seek_performed` and `pipeline_is_playing` flags;
- the once-only initial seek to the end of the stream, retried after a failure;
- the rule that copies the PCR_PID of a Program Map Table (ISO/IEC 13818-1,
  section 2.4.4.8) into the indexer;
- the forwarding of the `cache-size` and `allocator-name` properties to the inner timeshifter.

The media pipeline is a facade. What its queries answer is passed in as an
`Option` (None: the position or duration call raised, or the buffering
query returned false). Every seek, state request, preroll wait,
timer and signal-handler call is appended to a trace in the order it is
issued. Both controllers are Dafny classes with `modifies` clauses. The pure
parts are functions with lemmas: time formatting, the slider mapping, the
query fallbacks and the bin's flag transitions.

Modules:

- `Wrappers`: `Option`.
- `Gst`: clock constants, states, seek events.
- `TimeFormat`: `format_time` and a decoder for its output.
- `ScaleMapping`: percent to time and back.
- `VideoPlayer`: the `Player` class.
- `PlayerScenarios`: multi-callback properties, written as client methods.
- `ShifterBin`: flag transitions, run lemmas and the `TsShifterBin` class.

Some behaviours of the code that are easy to miss, all modelled as written:

- The refresh guards only against an unknown position and a zero duration,
  not against an unknown duration.
- The drag seek does not treat an unknown duration as zero. The slider label
  does. `ScaleMapping.UnknownDurationLabelAndDragDisagree` shows the two
  disagreeing. From 1 up to below the middle of the slider the drag then seeks years past
  any real time; from the middle on the target no longer fits the
  gint64 start of `pipeline.seek`, PyGObject raises, and no seek is sent.
- A refresh timer and a connected value-changed handler never coexist
  (`Player.NoRefreshDuringDrag`), so the refresh does not move the slider
  during a drag, as the comment in `scale_button_press_cb` intends.
- The overrun target is `begin + 2 s` whatever the current position is. It can
  lie behind the playback position, and it lies past the end of the buffer when
  the range is shorter than two seconds. When the buffering query fails it is 2 s.
- A release whose refresh timer is still live calls `self.error`, which
  `Player` does not define. The callback therefore ends in an exception, not a
  reported logic error. The model gives this path the outcome `TimerStillLive`.
- `format_time` is called on the unknown-duration sentinel as well. It renders
  it as `307445734:33`.

## Model

| member | source | states |
|---|---|---|
| TimeFormat.Decimal | examples/video-player.py:199 | `%d` of a natural number: at least one digit, a single one exactly below 10, and a leading '0' only for 0 |
| TimeFormat.DecimalRoundTrip | examples/video-player.py:199 | the digits `%d` prints denote the number printed |
| TimeFormat.DecimalCanonical | examples/video-player.py:199 | any digit string without a leading zero is exactly what `%d` prints for the number it denotes |
| TimeFormat.Pad2 | examples/video-player.py:199 | `'%02d'`: a non-negative number gives at least two digits that denote it; exactly two below 100, zero-padded; from 10 on exactly the `%d` digits, with no padding; a negative one gives a minus sign followed by the `%d` digits of its magnitude |
| TimeFormat.FormatTime | examples/video-player.py:197-199 | the rendering always ends in ':' followed by two digits |
| TimeFormat.FormatTimeDecodes | examples/video-player.py:197-199 | for a non-negative time the text decodes to (whole minutes, remaining seconds) of the whole seconds of the input; minutes are not clamped, seconds are below 60, and minutes*60+seconds gives back the whole seconds |
| TimeFormat.FormatTimeNegative | examples/video-player.py:197-199 | a negative time shows a minus sign exactly when it is at least one minute below zero (truncation of the minutes toward zero) |
| TimeFormat.FormatTimeExamples | examples/video-player.py:197-199 | 125 s renders as "02:05" and 0 as "00:00" |
| TimeFormat.FormatTimeOfUnknown | examples/video-player.py:162 | the duration label formats CLOCK_TIME_NONE as "307445734:33" |
| ScaleMapping.Truncate | examples/video-player.py:279 | `int()` of a float: truncation toward zero, with the bounds that characterise it on each side of zero |
| ScaleMapping.PercentToTime | examples/video-player.py:201-205 | an unknown duration gives 0; otherwise the result is the whole nanoseconds of value*duration/100 |
| ScaleMapping.ScaleLabel | examples/video-player.py:201-207 | the slider label reads "00:00" whenever the duration is unknown |
| ScaleMapping.TimeToPercent | examples/video-player.py:164 | the slider value times the duration is the position times 100 |
| ScaleMapping.DragTarget | examples/video-player.py:278-279 | the drag target is the time the label shows for a non-negative value and a known non-negative duration; with an unknown duration it is at least CLOCK_TIME_NONE/100 for any value of 1 or more |
| ScaleMapping.PercentToTimeWithinDuration | examples/video-player.py:201-205 | a slider value in [0, 100] stands for a time in [0, duration] |
| ScaleMapping.TimeToPercentWithinScale | examples/video-player.py:163-165 | a position in [0, duration] puts the slider in [0, 100] |
| ScaleMapping.PercentRoundTrip | examples/video-player.py:164 | time-to-percent after percent-to-time gives the value back, rounded down by less than 100/duration |
| ScaleMapping.ScaleLabelWithinDuration | examples/video-player.py:201-207 | for a value in [0, 100] the label decodes to a time no later than the whole seconds of the duration |
| ScaleMapping.UnknownDurationLabelAndDragDisagree | examples/video-player.py:278-283 | with an unknown duration the label shows "00:00" while the drag target is at least CLOCK_TIME_NONE/100; for a value in [1, 50) that target fits a gint64, and from 50.001 on it does not |
| VideoPlayer.AbsoluteSeek | examples/video-player.py:230-235 | an absolute seek is flushing and accurate, SET to the location, with no stop |
| VideoPlayer.QueryPosition | examples/video-player.py:173-184 | a position query and a duration query that raise each independently yield CLOCK_TIME_NONE; an answer is passed through unchanged |
| VideoPlayer.QueryBuffering | examples/video-player.py:186-195 | a failed buffering query yields (0, 0); a successful one yields the reported range |
| VideoPlayer.OverrunTarget | examples/video-player.py:149-150 | the overrun target is the freshly queried buffer start plus 2 s, and 2 s when the query fails |
| VideoPlayer.TimeText | examples/video-player.py:162 | a label built from a prefix and `format_time` starts with the prefix, and for a non-negative time the rest reads back as its whole minutes and remaining seconds |
| VideoPlayer.Player.DurationText | examples/video-player.py:108-162 | the duration label shows "duration: --:--" until the first refresh, then "duration: " and the last sampled duration in minutes and seconds |
| VideoPlayer.Player.BufferBeginText | examples/video-player.py:111-168 | the buffer-begin label shows its placeholder until the first refresh, then "buffer begin: " and the start of the buffered range |
| VideoPlayer.Player.BufferEndText | examples/video-player.py:114-169 | the buffer-end label shows its placeholder until the first refresh, then "buffer end: " and the end of the buffered range |
| VideoPlayer.Player.constructor | examples/video-player.py:54-158 | position and duration start unknown, no value-changed handler, label "Pause", one 1000 ms refresh timer installed, the overrun handler wired only when a timeshifter is found; no drag is under way, so the timer may run |
| VideoPlayer.Player.UpdateScale | examples/video-player.py:160-171 | run only by the live timer, the refresh stores both query results (or the sentinels), moves the slider to position*100/duration only when the position is known and the duration is non-zero, shows the duration and the buffered range, keeps the timer and sends nothing to the pipeline |
| VideoPlayer.Player.Seek | examples/video-player.py:230-240 | appends exactly one flushing accurate seek to the location when it fits a gint64; otherwise PyGObject raises and nothing is sent |
| VideoPlayer.Player.SeekEnd | examples/video-player.py:242-251 | appends exactly one flushing accurate seek to the end of the stream (END, -1) |
| VideoPlayer.Player.Pause | examples/video-player.py:253-263 | "Pause" becomes "Play" and requests PAUSED; "Play" becomes "Pause" and requests PLAYING; one set_state per call |
| VideoPlayer.Player.ScaleButtonPress | examples/video-player.py:265-276 | removes a live refresh timer and records that none is live; connects the value-changed handler only when none is connected; afterwards no timer is live while the handler is connected |
| VideoPlayer.Player.ScaleValueChanged | examples/video-player.py:278-283 | only while the handler is connected: the slider takes the dragged value, the seek goes to the truncated target computed from the slider, then a 50 ms preroll wait; a target outside gint64 sends nothing |
| VideoPlayer.Player.ScaleButtonRelease | examples/video-player.py:285-292 | always disconnects and forgets the handler; takes the error path, adding no timer, exactly when a timer is still live; otherwise installs exactly one 1000 ms timer |
| VideoPlayer.Player.OnEos | examples/video-player.py:294-299 | rewinds to 0 with a flushing key-unit seek |
| VideoPlayer.Player.OnOverrun | examples/video-player.py:147-153 | seeks to the overrun target, then requests PLAYING; the pause label is untouched; a target outside gint64 raises before either is sent |
| PlayerScenarios.PauseTwice | examples/video-player.py:253-263 | two presses restore the label and issue PAUSED then PLAYING (or the reverse), nothing else |
| PlayerScenarios.PressTwice | examples/video-player.py:265-276 | a second drag press changes nothing after the first |
| PlayerScenarios.DragCycle | examples/video-player.py:265-292 | press then release from the running state removes the timer, connects and disconnects the handler, and reinstalls exactly one timer |
| PlayerScenarios.DragThenRefresh | examples/video-player.py:160-292 | after press, drag to a value and release, a refresh whose position query raises leaves the slider at the dragged value |
| PlayerScenarios.ReleaseWithoutPress | examples/video-player.py:285-292 | a release while the timer is live takes the error path and adds no timer |
| PlayerScenarios.OverrunWhilePaused | examples/video-player.py:147-153 | with the range [10 s, 40 s] an overrun while paused seeks to 12 s and forces PLAYING, leaving the label at "Play" |
| ShifterBin.PcrPidUpdate | src/gsttsshifterbin.c:266-283 | a message changes the PCR PID if and only if it is named "pmt" and both its section and its PMT parse; the new value is the PMT's PCR_PID |
| ShifterBin.MinCacheSize | src/gsttsshifterbin.c:30 | the smallest cache size is room for exactly four cache slots |
| ShifterBin.Accepts | src/gsttsshifterbin.c:114-124 | GObject hands on only the two installed ids; a cache-size exactly when it is a guint64 in [4 slots, G_MAXUINT64]; an allocator name exactly when it is a value of the property's own type, a (nullable) string |
| ShifterBin.InitialSeekOnlyOnPlay | src/gsttsshifterbin.c:236-249 | whenever change_state sends the initial seek the bin is then playing, and a refused send leaves the seek pending |
| ShifterBin.AfterInitialSeek | src/gsttsshifterbin.c:171-191 | the seek flag becomes set exactly when it was set or the send succeeds; the playing flag is untouched |
| ShifterBin.AfterStateChange | src/gsttsshifterbin.c:230-259 | a parent FAILURE changes nothing; PAUSED to PLAYING sets playing; PLAYING to PAUSED clears it; other transitions change nothing; the seek flag is never cleared and becomes set only by an accepted initial seek |
| ShifterBin.InitialSeekStaysPerformed | src/gsttsshifterbin.c:175-176 | once performed, the initial seek stays performed over any sequence of state changes and is never sent again |
| ShifterBin.InitialSeekAcceptedAtMostOnce | src/gsttsshifterbin.c:180-190 | over any sequence of state changes the seeker accepts the initial seek at most once, exactly once if the flag goes from clear to set |
| ShifterBin.FailedSeekIsRetried | src/gsttsshifterbin.c:241-249 | while the flag stays clear, every non-failing PAUSED to PLAYING change sends the seek again |
| ShifterBin.RetryExample | src/gsttsshifterbin.c:240-256 | refused, then accepted on the next PAUSED to PLAYING, then not resent: two sends, one acceptance |
| ShifterBin.TsShifterBin.constructor | src/gsttsshifterbin.c:199-200 | both flags start false; nothing sent, nothing forwarded |
| ShifterBin.TsShifterBin.PerformInitialSeek | src/gsttsshifterbin.c:171-191 | a no-op once performed; otherwise sends the FLUSH, END, -1 seek and sets the flag only if the send succeeds |
| ShifterBin.TsShifterBin.ChangeState | src/gsttsshifterbin.c:230-259 | returns the parent's result; the flags follow AfterStateChange and the seek is sent exactly when SendsInitialSeek holds |
| ShifterBin.TsShifterBin.HandleMessage | src/gsttsshifterbin.c:261-287 | sets the indexer's PCR PID as PcrPidUpdate says, otherwise leaves it; forwards every message to the parent exactly once |
| ShifterBin.TsShifterBin.SetProperty | src/gsttsshifterbin.c:54-75 | a cache-size in [4 slots, G_MAXUINT64], or an allocator name, given as a value of the property's own type, is forwarded unchanged; any other value or id changes nothing |
| ShifterBin.TsShifterBin.GetProperty | src/gsttsshifterbin.c:77-98 | cache-size and allocator-name read the timeshifter's values; an unknown id yields nothing |
| ShifterBin.CacheSizeRoundTrip | src/gsttsshifterbin.c:114-119 | a cache-size inside the declared range, set through the bin, reads back unchanged |

## Left out

- GTK window, widget construction and rendering, `run`, `quit`, `on_sync_message`
  and the window-handle handoff: UI plumbing. The three information labels are
  kept only as the times they show (`shownDuration`, `shownBufferBegin`,
  `shownBufferEnd`).
- `on_error`: it only prints the parsed error, so it has no state to model.
- Pipeline construction from the launch string, bus wiring and `main`: the
  pipeline is a facade whose answers are parameters. Whether a "timeshifter"
  element is found is a constructor parameter.
- The boolean result of `pipeline.seek`: it only selects a log message.
- Logging and `print` output throughout.
- VideoPlayer.Player.UpdateScale: the slider is a plain `real`. GTK's clamping
  of the adjustment to its range is not modelled.
- ScaleMapping.UnknownDurationLabelAndDragDisagree: with exact reals a value of
  exactly 50 gives 2^63-1, which fits a gint64. In the script the float
  product rounds up to 2^63, so the seek raises at 50 as well. The lemma makes
  no claim at 50.
- Failed queries: the GStreamer 1.0 `query_position` and `query_duration`
  return `(False, value)` rather than raising. Such an answer is modelled as
  `Some(value)`; `None` stands only for a call that raises.
- `format_time` is read with Python 3 division (float `/`, floor `%`).
  TimeFormat.FormatTimeNegative holds only under that reading; under Python 2
  integer division floors the minutes too. Non-negative times render the same
  either way.
- Floating point: percentages are exact `real`s and times are exact integers.
  Rounding of large values in Python floats is not modelled.
- ScaleMapping.PercentToTime: the label's float time is rounded down to whole
  nanoseconds before formatting. This leaves the label unchanged for
  non-negative values.
- The 50 ms preroll wait (`get_state` with a timeout) is a blocking foreign
  call. It appears only as a trace entry.
- VideoPlayer.Player.ScaleButtonRelease: disconnecting with an id of -1, which
  happens when there was no press before the release, is recorded as an
  ordinary `Disconnect(-1)` entry. What PyGObject does with a negative id is
  not modelled.
- Timer and handler ids come from GLib and GObject. They are parameters,
  assumed positive.
- GObject and GStreamer boilerplate: class_init, pad templates, `mirror_pad`,
  creation and linking of the inner elements, and the shared index.
- `gst_element_clear`: its guard is inverted, so the error cleanup in
  `gst_ts_shifter_bin_init` releases nothing. Only the flag initialisation of
  `gst_ts_shifter_bin_init` is modelled.
- The value of CACHE_SLOT_SIZE: tscache.h is not part of this model, so the
  slot size is a constructor parameter. The initial cache-size and
  allocator-name belong to the inner timeshifter (tsshifter is not part of this
  model), so they are constructor parameters too.
- DEFAULT_CACHE_SIZE (32 MiB, src/gsttsshifterbin.c:31) is only the default
  advertised by the parameter spec. The bin never applies it to the
  timeshifter, so it plays no part in the model.
- ShifterBin.Accepts: GObject converts a value of another type before it
  checks it (a guint64 given for allocator-name becomes its decimal string and
  is handed on). That conversion is not modelled; such a value is treated as
  rejected.
- The range check on cache-size is the one GObject applies with the installed
  parameter spec before `set_property` runs. Any further check by the
  timeshifter is not modelled.
- What the parent class's `change_state` and `handle_message` do, beyond the
  result and the forwarded message. The release of the parsed section
  (`gst_mpegts_section_unref`) is not modelled either.
- The recording ring buffer that raises "overrun" (tscache, tsindex, tsshifter):
  it is not part of this model.
- Threads: GStreamer delivers the bus messages and signals. Each callback is
  modelled as one atomic call.
