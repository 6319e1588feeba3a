/**
 * The time-shift playback controller of examples/video-player.py (class
 * Player). The GTK widgets are reduced to the state the controller keeps in
 * them: the pause-button label, the slider value and the three information
 * labels. The media pipeline is a facade: what its queries answer is passed
 * in, and every command sent to it, or to the GLib main loop and the slider
 * widget, is appended to `trace` in the order it is issued.
 */
module VideoPlayer {
  import opened Wrappers
  import opened Gst
  import opened TimeFormat
  import opened ScaleMapping

  /** Period of the position refresh timer, in milliseconds. */
  const REFRESH_INTERVAL_MS: int := 1000
  /** How long a drag seek waits for the pipeline to preroll. */
  const PREROLL_WAIT: int := 50 * MSECOND
  /** How far past the start of the buffered range an overrun seeks. */
  const OVERRUN_SKIP: int := 2 * SECOND
  /** The id the script stores when no timer or handler is installed. */
  const NO_ID: int := -1

  /** The text on the pause button; it doubles as the play/pause state. */
  datatype PauseLabel = ShowsPause | ShowsPlay

  /** How a drag ends: the refresh timer reinstalled, or the error path. */
  datatype ReleaseOutcome = Rearmed | TimerStillLive

  /** A command issued by the controller. */
  datatype Call =
    | SeekCall(event: SeekEvent)                        // pipeline.seek
    | SeekSimpleCall(flags: set<SeekFlag>, pos: int)    // pipeline.seek_simple in TIME format
    | SetStateCall(state: State)                        // pipeline.set_state
    | GetStateCall(timeout: int)                        // pipeline.get_state, the preroll wait
    | TimeoutAdd(intervalMs: int, id: int)              // GObject.timeout_add of the refresh
    | SourceRemove(id: int)                             // GObject.source_remove
    | ConnectValueChanged(id: int)                      // scale.connect('value-changed', ...)
    | Disconnect(id: int)                               // widget.disconnect

  /** The flushing, accurate seek to an absolute time (Player.seek). */
  function AbsoluteSeek(location: int): (e: SeekEvent)
    ensures e.startType == Set && e.start == location && e.stopType == NoChange
    ensures e.flags == {Flush, Accurate}
  {
    SeekEvent(1.0, {Flush, Accurate}, Set, location, NoChange, 0)
  }

  /** The flushing, accurate seek to the end of the stream (Player.seek_end). */
  const LIVE_SEEK: SeekEvent := SeekEvent(1.0, {Flush, Accurate}, End, -1, NoChange, 0)

  /** Player.query_position: each failed query independently reads as unknown. */
  function QueryPosition(positionAnswer: Option<int>, durationAnswer: Option<int>): (r: (int, int))
    ensures positionAnswer.None? ==> r.0 == CLOCK_TIME_NONE
    ensures positionAnswer.Some? ==> r.0 == positionAnswer.value
    ensures durationAnswer.None? ==> r.1 == CLOCK_TIME_NONE
    ensures durationAnswer.Some? ==> r.1 == durationAnswer.value
  {
    (match positionAnswer case Some(p) => p case None => CLOCK_TIME_NONE,
     match durationAnswer case Some(d) => d case None => CLOCK_TIME_NONE)
  }

  /** Player.query_buffering: a failed buffering query reads as (0, 0). */
  function QueryBuffering(answer: Option<(int, int)>): (r: (int, int))
    ensures answer.None? ==> r == (0, 0)
    ensures answer.Some? ==> r == answer.value
  {
    match answer
    case Some(range) => range
    case None => (0, 0)
  }

  /** Where an overrun seeks: two seconds past the start of the range the
      pipeline reports at that moment. */
  function OverrunTarget(bufferingAnswer: Option<(int, int)>): (t: int)
    ensures bufferingAnswer.Some? ==> t == bufferingAnswer.value.0 + OVERRUN_SKIP
    ensures bufferingAnswer.None? ==> t == OVERRUN_SKIP
  {
    QueryBuffering(bufferingAnswer).0 + OVERRUN_SKIP
  }

  /** Whether `r` is `prefix` followed by a rendering of the time `t` that
      reads back as its whole minutes and remaining seconds. */
  predicate ShowsTime(r: string, prefix: string, t: int) {
    |prefix| <= |r| && r[..|prefix|] == prefix &&
    (t >= 0 ==> ParseClock(r[|prefix|..]) == Some((t / SECOND / 60, t / SECOND % 60)))
  }

  /** A label text of the form 'prefix%s' % format_time(t). */
  function TimeText(prefix: string, t: int): (r: string)
    ensures ShowsTime(r, prefix, t)
  {
    var r := prefix + FormatTime(t);
    assert r[..|prefix|] == prefix && r[|prefix|..] == FormatTime(t);
    assert t >= 0 ==> ParseClock(FormatTime(t)) == Some((t / SECOND / 60, t / SECOND % 60)) by {
      if t >= 0 {
        FormatTimeDecodes(t);
      }
    }
    r
  }

  class Player {
    /** Last sampled position and duration, CLOCK_TIME_NONE when unknown. */
    var position: int
    var duration: int
    /** Id of the live refresh timer, NO_ID while it is removed. */
    var updateId: int
    /** Id of the slider's value-changed handler, NO_ID when not connected. */
    var changedId: int
    var pauseLabel: PauseLabel
    /** Value of the 0..100 slider. */
    var slider: real
    /** The times the duration and buffer-range labels show; None while a
        label still shows its initial placeholder text. */
    var shownDuration: Option<int>
    var shownBufferBegin: Option<int>
    var shownBufferEnd: Option<int>
    /** Whether the overrun handler was connected (a "timeshifter" element was found). */
    const overrunConnected: bool
    var trace: seq<Call>

    /** While the value-changed handler is connected (a drag is under way)
        no refresh timer is live, so the refresh never moves the slider
        under the user's pointer. */
    predicate NoRefreshDuringDrag()
      reads this`updateId, this`changedId
    {
      changedId != NO_ID ==> updateId == NO_ID
    }

    /** The text of the duration label. */
    function DurationText(): (r: string)
      reads this`shownDuration
      ensures shownDuration.None? ==> r == "duration: --:--"
      ensures shownDuration.Some? ==> ShowsTime(r, "duration: ", shownDuration.value)
    {
      match shownDuration
      case None => "duration: --:--"
      case Some(d) => TimeText("duration: ", d)
    }

    /** The text of the buffer-begin label. */
    function BufferBeginText(): (r: string)
      reads this`shownBufferBegin
      ensures shownBufferBegin.None? ==> r == "buffer begin (bytes): 0"
      ensures shownBufferBegin.Some? ==> ShowsTime(r, "buffer begin: ", shownBufferBegin.value)
    {
      match shownBufferBegin
      case None => "buffer begin (bytes): 0"
      case Some(t) => TimeText("buffer begin: ", t)
    }

    /** The text of the buffer-end label. */
    function BufferEndText(): (r: string)
      reads this`shownBufferEnd
      ensures shownBufferEnd.None? ==> r == "buffer end (bytes): 0"
      ensures shownBufferEnd.Some? ==> ShowsTime(r, "buffer end: ", shownBufferEnd.value)
    {
      match shownBufferEnd
      case None => "buffer end (bytes): 0"
      case Some(t) => TimeText("buffer end: ", t)
    }

    /** Player.__init__ without the widget and pipeline construction; the
        main loop hands out `timerId` for the first refresh timer. */
    constructor (timeshifterFound: bool, timerId: int)
      requires timerId > 0
      ensures position == CLOCK_TIME_NONE && duration == CLOCK_TIME_NONE
      ensures updateId == timerId && changedId == NO_ID
      ensures pauseLabel == ShowsPause && slider == 0.0
      ensures shownDuration == None && shownBufferBegin == None && shownBufferEnd == None
      ensures DurationText() == "duration: --:--"
      ensures BufferBeginText() == "buffer begin (bytes): 0"
      ensures BufferEndText() == "buffer end (bytes): 0"
      ensures overrunConnected == timeshifterFound
      ensures trace == [TimeoutAdd(REFRESH_INTERVAL_MS, timerId)]
      ensures NoRefreshDuringDrag()
    {
      position, duration := CLOCK_TIME_NONE, CLOCK_TIME_NONE;
      changedId := NO_ID;
      pauseLabel := ShowsPause;
      slider := 0.0;
      shownDuration, shownBufferBegin, shownBufferEnd := None, None, None;
      overrunConnected := timeshifterFound;
      updateId := timerId;
      trace := [TimeoutAdd(REFRESH_INTERVAL_MS, timerId)];
    }

    /** Player.update_scale_cb, the periodic refresh. The slider moves only
        when the position is known and the duration is not zero; an unknown
        duration is not excluded. Returns true so the timer stays installed.
        Only the live timer runs it, so no drag is under way and moving the
        slider fires no value-changed seek. */
    method UpdateScale(positionAnswer: Option<int>, durationAnswer: Option<int>,
                       bufferingAnswer: Option<(int, int)>) returns (keep: bool)
      requires updateId != NO_ID && NoRefreshDuringDrag()
      modifies this`position, this`duration, this`slider
      modifies this`shownDuration, this`shownBufferBegin, this`shownBufferEnd
      ensures keep
      ensures (position, duration) == QueryPosition(positionAnswer, durationAnswer)
      ensures shownDuration == Some(duration)
      ensures position != CLOCK_TIME_NONE && duration != 0 ==> slider == TimeToPercent(position, duration)
      ensures position == CLOCK_TIME_NONE || duration == 0 ==> slider == old(slider)
      ensures shownBufferBegin == Some(QueryBuffering(bufferingAnswer).0)
      ensures shownBufferEnd == Some(QueryBuffering(bufferingAnswer).1)
      ensures NoRefreshDuringDrag()
    {
      position, duration := QueryPosition(positionAnswer, durationAnswer).0,
                            QueryPosition(positionAnswer, durationAnswer).1;
      shownDuration := Some(duration);
      if CLOCK_TIME_NONE != position && 0 != duration {
        slider := TimeToPercent(position, duration);
      }
      var (bufStart, bufEnd) := QueryBuffering(bufferingAnswer);
      shownBufferBegin, shownBufferEnd := Some(bufStart), Some(bufEnd);
      keep := true;
    }

    /** Player.seek: a flushing, accurate seek to `location`. The start
        position of pipeline.seek is a gint64; PyGObject refuses a location
        outside that range with an OverflowError before anything is sent,
        and the exception ends the calling callback (`sent` is false). */
    method Seek(location: int) returns (sent: bool)
      modifies this`trace
      ensures sent <==> FitsInt64(location)
      ensures trace == old(trace) + if sent then [SeekCall(AbsoluteSeek(location))] else []
    {
      sent := FitsInt64(location);
      if sent {
        trace := trace + [SeekCall(AbsoluteSeek(location))];
      }
    }

    /** Player.seek_end, the "Live" button: a seek to the end of the stream,
        resolved by the pipeline when it performs the seek. */
    method SeekEnd()
      requires NoRefreshDuringDrag()
      modifies this`trace
      ensures NoRefreshDuringDrag()
      ensures trace == old(trace) + [SeekCall(LIVE_SEEK)]
    {
      trace := trace + [SeekCall(LIVE_SEEK)];
    }

    /** Player.pause: flips the label and requests the matching state, one
        set_state per call, without waiting for the pipeline to confirm. */
    method Pause()
      requires NoRefreshDuringDrag()
      modifies this`pauseLabel, this`trace
      ensures NoRefreshDuringDrag()
      ensures old(pauseLabel) == ShowsPause ==> pauseLabel == ShowsPlay && trace == old(trace) + [SetStateCall(Paused)]
      ensures old(pauseLabel) == ShowsPlay ==> pauseLabel == ShowsPause && trace == old(trace) + [SetStateCall(Playing)]
    {
      var state: State;
      if pauseLabel == ShowsPause {
        pauseLabel := ShowsPlay;
        state := Paused;
      } else {
        pauseLabel := ShowsPause;
        state := Playing;
      }
      trace := trace + [SetStateCall(state)];
    }

    /** Player.scale_button_press_cb, the start of a drag: removes a live
        refresh timer and connects the value-changed handler (id `handlerId`,
        handed out by GObject) unless one is already connected. */
    method ScaleButtonPress(handlerId: int)
      requires handlerId > 0 && NoRefreshDuringDrag()
      modifies this`updateId, this`changedId, this`trace
      ensures NoRefreshDuringDrag()
      ensures updateId == NO_ID
      ensures changedId == if old(changedId) == NO_ID then handlerId else old(changedId)
      ensures trace == old(trace)
        + (if old(updateId) != NO_ID then [SourceRemove(old(updateId))] else [])
        + (if old(changedId) == NO_ID then [ConnectValueChanged(handlerId)] else [])
    {
      if updateId != NO_ID {
        trace := trace + [SourceRemove(updateId)];
        updateId := NO_ID;
      }
      if changedId == NO_ID {
        trace := trace + [ConnectValueChanged(handlerId)];
        changedId := handlerId;
      }
    }

    /** The drag moves the slider to `value`, and the connected handler
        Player.scale_value_changed_cb seeks to the slider's value, truncated
        to whole nanoseconds, then waits for the preroll. A target outside
        the gint64 range raises in Player.seek, so nothing is sent and the
        preroll wait is skipped. */
    method ScaleValueChanged(value: real)
      requires changedId != NO_ID && NoRefreshDuringDrag()
      modifies this`slider, this`trace
      ensures NoRefreshDuringDrag()
      ensures slider == value
      ensures trace == old(trace) +
        if FitsInt64(DragTarget(slider, duration))
        then [SeekCall(AbsoluteSeek(DragTarget(slider, duration))), GetStateCall(PREROLL_WAIT)]
        else []
    {
      slider := value;
      var sent := Seek(DragTarget(slider, duration));
      if sent {
        trace := trace + [GetStateCall(PREROLL_WAIT)];
      }
    }

    /** Player.scale_button_release_cb, the end of a drag: disconnects the
        value-changed handler, then reinstalls the refresh timer (id `timerId`)
        unless one is still live. In that case the script calls `self.error`,
        which Player does not define, so the callback ends with an exception;
        that is the TimerStillLive outcome, and no timer is added. */
    method ScaleButtonRelease(timerId: int) returns (outcome: ReleaseOutcome)
      requires timerId > 0 && NoRefreshDuringDrag()
      modifies this`updateId, this`changedId, this`trace
      ensures NoRefreshDuringDrag()
      ensures changedId == NO_ID
      ensures outcome == TimerStillLive <==> old(updateId) != NO_ID
      ensures outcome == TimerStillLive ==>
        updateId == old(updateId) &&
        trace == old(trace) + [Disconnect(old(changedId))]
      ensures outcome == Rearmed ==>
        updateId == timerId &&
        trace == old(trace) + [Disconnect(old(changedId)), TimeoutAdd(REFRESH_INTERVAL_MS, timerId)]
    {
      trace := trace + [Disconnect(changedId)];
      changedId := NO_ID;
      if updateId != NO_ID {
        outcome := TimerStillLive;
      } else {
        updateId := timerId;
        trace := trace + [TimeoutAdd(REFRESH_INTERVAL_MS, timerId)];
        outcome := Rearmed;
      }
    }

    /** Player.on_eos: rewinds to zero, flushing and snapping to a key unit. */
    method OnEos()
      requires NoRefreshDuringDrag()
      modifies this`trace
      ensures NoRefreshDuringDrag()
      ensures trace == old(trace) + [SeekSimpleCall({Flush, KeyUnit}, 0)]
    {
      trace := trace + [SeekSimpleCall({Flush, KeyUnit}, 0)];
    }

    /** The overrun handler: queries the buffered range afresh, seeks two
        seconds past its start and forces PLAYING. The pause label is left as
        it was, so it may no longer match the pipeline's state. A target
        beyond the gint64 range raises in Player.seek before PLAYING is set. */
    method OnOverrun(bufferingAnswer: Option<(int, int)>)
      requires overrunConnected && NoRefreshDuringDrag()
      modifies this`trace
      ensures NoRefreshDuringDrag()
      ensures trace == old(trace) +
        if FitsInt64(OverrunTarget(bufferingAnswer))
        then [SeekCall(AbsoluteSeek(OverrunTarget(bufferingAnswer))), SetStateCall(Playing)]
        else []
    {
      var (bufBegin, _) := QueryBuffering(bufferingAnswer);
      var seekTo := bufBegin + OVERRUN_SKIP;
      var sent := Seek(seekTo);
      if sent {
        trace := trace + [SetStateCall(Playing)];
      }
    }
  }
}
