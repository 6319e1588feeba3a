/**
 * Properties of examples/video-player.py that span several callbacks,
 * stated as client methods over the Player class: what a caller can
 * conclude from the contracts of the individual callbacks alone.
 */
module PlayerScenarios {
  import opened Wrappers
  import opened Gst
  import opened VideoPlayer

  /** Pressing the pause button twice restores the label and sends exactly
      two state requests, PAUSED then PLAYING or the reverse. */
  method PauseTwice(p: Player)
    requires p.NoRefreshDuringDrag()
    modifies p
    ensures p.pauseLabel == old(p.pauseLabel)
    ensures old(p.pauseLabel) == ShowsPause ==>
      p.trace == old(p.trace) + [SetStateCall(Paused), SetStateCall(Playing)]
    ensures old(p.pauseLabel) == ShowsPlay ==>
      p.trace == old(p.trace) + [SetStateCall(Playing), SetStateCall(Paused)]
    ensures p.updateId == old(p.updateId) && p.changedId == old(p.changedId)
  {
    p.Pause();
    p.Pause();
  }

  /** A second press on the slider changes nothing: two presses leave the
      same state and trace as the first one alone. */
  method PressTwice(p: Player, firstHandler: int, secondHandler: int)
    requires firstHandler > 0 && secondHandler > 0 && p.NoRefreshDuringDrag()
    modifies p
    ensures p.updateId == NO_ID
    ensures p.changedId == if old(p.changedId) == NO_ID then firstHandler else old(p.changedId)
    ensures p.trace == old(p.trace)
      + (if old(p.updateId) != NO_ID then [SourceRemove(old(p.updateId))] else [])
      + (if old(p.changedId) == NO_ID then [ConnectValueChanged(firstHandler)] else [])
  {
    p.ScaleButtonPress(firstHandler);
    ghost var afterFirst := p.trace;
    p.ScaleButtonPress(secondHandler);
    assert p.trace == afterFirst;
  }

  /** A drag that starts while the refresh timer runs ends with the timer
      reinstalled and the value-changed handler gone. */
  method DragCycle(p: Player, handlerId: int, timerId: int) returns (outcome: ReleaseOutcome)
    requires handlerId > 0 && timerId > 0
    requires p.updateId != NO_ID && p.changedId == NO_ID
    modifies p
    ensures outcome == Rearmed
    ensures p.updateId == timerId && p.changedId == NO_ID
    ensures p.trace == old(p.trace) + [SourceRemove(old(p.updateId)), ConnectValueChanged(handlerId),
                                       Disconnect(handlerId), TimeoutAdd(REFRESH_INTERVAL_MS, timerId)]
  {
    p.ScaleButtonPress(handlerId);
    outcome := p.ScaleButtonRelease(timerId);
  }

  /** The value a drag leaves on the slider stays there after the release
      until the refresh finds a known position: a refresh whose position
      query raises does not move it back. */
  method DragThenRefresh(p: Player, handlerId: int, value: real, timerId: int)
    requires handlerId > 0 && timerId > 0
    requires p.updateId != NO_ID && p.changedId == NO_ID
    modifies p
    ensures p.slider == value
    ensures p.updateId == timerId && p.changedId == NO_ID
  {
    p.ScaleButtonPress(handlerId);
    p.ScaleValueChanged(value);
    var outcome := p.ScaleButtonRelease(timerId);
    var keep := p.UpdateScale(None, Some(60 * SECOND), None);
  }

  /** A release with no press before it, while the refresh timer is live,
      takes the error path and installs no second timer. */
  method ReleaseWithoutPress(p: Player, timerId: int) returns (outcome: ReleaseOutcome)
    requires timerId > 0
    requires p.updateId != NO_ID && p.NoRefreshDuringDrag()
    modifies p
    ensures outcome == TimerStillLive
    ensures p.updateId == old(p.updateId)
    ensures forall i :: |old(p.trace)| <= i < |p.trace| ==> !p.trace[i].TimeoutAdd?
  {
    outcome := p.ScaleButtonRelease(timerId);
  }

  /** An overrun while paused forces PLAYING but keeps the "Play" label, so
      the label no longer tells the pipeline's state. With the buffered range
      at [10 s, 40 s] the seek goes to 12 s. */
  method OverrunWhilePaused(p: Player)
    requires p.overrunConnected && p.pauseLabel == ShowsPause && p.NoRefreshDuringDrag()
    modifies p
    ensures p.pauseLabel == ShowsPlay
    ensures p.trace == old(p.trace) + [SetStateCall(Paused),
                                       SeekCall(AbsoluteSeek(12 * SECOND)),
                                       SetStateCall(Playing)]
  {
    p.Pause();
    p.OnOverrun(Some((10 * SECOND, 40 * SECOND)));
  }
}
