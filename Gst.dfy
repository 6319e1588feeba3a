/**
 * The few GStreamer values the controller and the shifter bin exchange with
 * the media pipeline: clock constants, element states, seek events and the
 * result of a state change. The pipeline itself is not modelled; these are
 * the arguments and results of the calls made into it.
 */
module Gst {

  /** Nanoseconds per second and per millisecond (GST_SECOND, GST_MSECOND). */
  const SECOND: int := 1_000_000_000
  const MSECOND: int := 1_000_000

  /** The largest value of a guint64 (G_MAXUINT64). */
  const MAX_UINT64: int := 0xFFFF_FFFF_FFFF_FFFF

  /** The range of a gint64, the type of a seek's start position. */
  const MIN_INT64: int := -0x8000_0000_0000_0000
  const MAX_INT64: int := 0x7FFF_FFFF_FFFF_FFFF

  predicate FitsInt64(x: int) {
    MIN_INT64 <= x <= MAX_INT64
  }

  /** GST_CLOCK_TIME_NONE: the "unknown time" sentinel, all 64 bits set. */
  const CLOCK_TIME_NONE: int := MAX_UINT64

  /** Element states (GstState). */
  datatype State = VoidPending | Null | Ready | Paused | Playing

  /** A state change is a pair of adjacent states (GstStateChange). */
  datatype Transition = Transition(from: State, to: State)

  const PAUSED_TO_PLAYING: Transition := Transition(Paused, Playing)
  const PLAYING_TO_PAUSED: Transition := Transition(Playing, Paused)

  /** GstStateChangeReturn. */
  datatype StateChangeReturn = Failure | Success | Async | NoPreroll

  /** The seek flags used by this code (GstSeekFlags). */
  datatype SeekFlag = Flush | Accurate | KeyUnit

  /** GstSeekType: how a seek boundary is interpreted. */
  datatype SeekType = NoChange | Set | End

  /** A seek in TIME format: rate, flags, start boundary and stop boundary. */
  datatype SeekEvent = SeekEvent(
    rate: real,
    flags: set<SeekFlag>,
    startType: SeekType,
    start: int,
    stopType: SeekType,
    stop: int)
}
