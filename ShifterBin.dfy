/**
 * The lifecycle flags, message rule and cache-size property of the
 * time-shift bin (src/gsttsshifterbin.c). The bin's inner elements are not
 * modelled: the seeker appears only as the events sent to it, the indexer as
 * its "pcr-pid" property, the timeshifter as its "cache-size" and
 * "allocator-name" properties, and the parent class (GstBin) as the result
 * of its change_state and the messages handed on to it.
 */
module ShifterBin {
  import opened Wrappers
  import opened Gst

  /** The smallest accepted cache size: room for exactly four cache slots. */
  function MinCacheSize(cacheSlotSize: nat): (m: nat)
    ensures cacheSlotSize > 0 ==> m % cacheSlotSize == 0 && m / cacheSlotSize == 4
    ensures cacheSlotSize == 0 ==> m == 0
  {
    4 * cacheSlotSize
  }

  /** Property ids of the bin. */
  const PROP_CACHE_SIZE: nat := 1
  const PROP_ALLOCATOR_NAME: nat := 2

  /** A property value: a guint64 or a nullable string. */
  datatype PropValue = UInt64Value(n: int) | StringValue(s: Option<string>)

  /** Whether GObject hands a value for a property to the bin: the id must be
      installed, the value of its type and, for "cache-size", inside the
      declared range [4 cache slots, G_MAXUINT64]. */
  predicate Accepts(cacheSlotSize: nat, propId: nat, value: PropValue): (ok: bool)
    ensures ok ==> propId == PROP_CACHE_SIZE || propId == PROP_ALLOCATOR_NAME
    ensures propId == PROP_CACHE_SIZE ==>
      (ok <==> value.UInt64Value? && 4 * cacheSlotSize <= value.n <= MAX_UINT64)
    ensures propId == PROP_ALLOCATOR_NAME ==> (ok <==> value.StringValue?)
  {
    if propId == PROP_CACHE_SIZE then
      value.UInt64Value? && MinCacheSize(cacheSlotSize) <= value.n <= MAX_UINT64
    else if propId == PROP_ALLOCATOR_NAME then
      value.StringValue?
    else
      false
  }

  /** A PID: 13 bits. */
  type Pid = p: int | 0 <= p < 0x2000

  /** The Program Map Table, reduced to its PCR_PID field. */
  datatype Pmt = Pmt(pcrPid: Pid)
  /** An MPEG-TS section; `pmt` is None when it does not parse as a PMT. */
  datatype Section = Section(pmt: Option<Pmt>)
  /** A bus message: its structure name and, when it carries one that
      parses, an MPEG-TS section. */
  datatype Message = Message(name: string, section: Option<Section>)

  /** The PCR PID a message makes the bin set on the indexer, if any. */
  function PcrPidUpdate(msg: Message): (r: Option<Pid>)
    ensures r.Some? <==> msg.name == "pmt" && msg.section.Some? && msg.section.value.pmt.Some?
    ensures r.Some? ==> r.value == msg.section.value.pmt.value.pcrPid
  {
    if msg.name == "pmt" then
      match msg.section
      case Some(section) =>
        (match section.pmt
         case Some(pmt) => Some(pmt.pcrPid)
         case None => None)
      case None => None
    else
      None
  }

  /** The initial seek: flushing, to the end of the stream (position -1). */
  const INITIAL_SEEK: SeekEvent := SeekEvent(1.0, {Flush}, End, -1, NoChange, 0)

  /** The two lifecycle flags of the bin. */
  datatype Flags = Flags(initialSeekPerformed: bool, pipelineIsPlaying: bool)

  const INITIAL_FLAGS: Flags := Flags(false, false)

  /** One call of change_state: the transition, what the parent class
      returned, and whether the seeker would accept the initial seek. */
  datatype StateChange = StateChange(transition: Transition, parent: StateChangeReturn, sendOk: bool)

  /** Whether change_state sends the initial seek to the seeker. */
  predicate SendsInitialSeek(f: Flags, c: StateChange) {
    c.parent != Failure && c.transition == PAUSED_TO_PLAYING && !f.initialSeekPerformed
  }

  /** The flags after perform_initial_seek: set once a send succeeds. */
  function AfterInitialSeek(f: Flags, sendOk: bool): (r: Flags)
    ensures r.pipelineIsPlaying == f.pipelineIsPlaying
    ensures r.initialSeekPerformed <==> f.initialSeekPerformed || sendOk
  {
    if f.initialSeekPerformed then f
    else if sendOk then f.(initialSeekPerformed := true)
    else f
  }

  /** The flags after change_state. */
  function AfterStateChange(f: Flags, c: StateChange): (r: Flags)
    ensures c.parent == Failure ==> r == f
    ensures f.initialSeekPerformed ==> r.initialSeekPerformed
    ensures r.initialSeekPerformed <==> f.initialSeekPerformed || (SendsInitialSeek(f, c) && c.sendOk)
    ensures c.parent != Failure && c.transition == PAUSED_TO_PLAYING ==> r.pipelineIsPlaying
    ensures c.parent != Failure && c.transition == PLAYING_TO_PAUSED ==> !r.pipelineIsPlaying
    ensures c.transition != PAUSED_TO_PLAYING && c.transition != PLAYING_TO_PAUSED ==> r == f
  {
    if c.parent == Failure then f
    else if c.transition == PAUSED_TO_PLAYING then
      AfterInitialSeek(f.(pipelineIsPlaying := true), c.sendOk)
    else if c.transition == PLAYING_TO_PAUSED then
      f.(pipelineIsPlaying := false)
    else
      f
  }

  /** The flags after a sequence of change_state calls. */
  function Run(f: Flags, calls: seq<StateChange>): Flags
    decreases |calls|
  {
    if calls == [] then f else Run(AfterStateChange(f, calls[0]), calls[1..])
  }

  /** How many initial seeks a sequence of change_state calls sends. */
  function SeeksSent(f: Flags, calls: seq<StateChange>): nat
    decreases |calls|
  {
    if calls == [] then 0
    else (if SendsInitialSeek(f, calls[0]) then 1 else 0) + SeeksSent(AfterStateChange(f, calls[0]), calls[1..])
  }

  /** How many of those seeks the seeker accepted. */
  function SeeksAccepted(f: Flags, calls: seq<StateChange>): nat
    decreases |calls|
  {
    if calls == [] then 0
    else (if SendsInitialSeek(f, calls[0]) && calls[0].sendOk then 1 else 0)
         + SeeksAccepted(AfterStateChange(f, calls[0]), calls[1..])
  }

  /** How many calls of a sequence enter PLAYING from PAUSED with the parent's consent. */
  function PlayingEntries(calls: seq<StateChange>): nat
    decreases |calls|
  {
    if calls == [] then 0
    else (if calls[0].parent != Failure && calls[0].transition == PAUSED_TO_PLAYING then 1 else 0)
         + PlayingEntries(calls[1..])
  }

  /** change_state sends the initial seek exactly on a non-failing PAUSED to
      PLAYING change while it is not yet performed; the bin then counts as
      playing, and a refused send leaves the seek pending. */
  lemma InitialSeekOnlyOnPlay(f: Flags, c: StateChange)
    ensures SendsInitialSeek(f, c) ==> AfterStateChange(f, c).pipelineIsPlaying
    ensures SendsInitialSeek(f, c) && !c.sendOk ==> !AfterStateChange(f, c).initialSeekPerformed
  {
  }

  /** Once performed, the initial seek is never undone and never sent again. */
  lemma {:induction false} InitialSeekStaysPerformed(f: Flags, calls: seq<StateChange>)
    requires f.initialSeekPerformed
    ensures Run(f, calls).initialSeekPerformed
    ensures SeeksSent(f, calls) == 0
    decreases |calls|
  {
    if calls != [] {
      InitialSeekStaysPerformed(AfterStateChange(f, calls[0]), calls[1..]);
    }
  }

  /** The seeker accepts the initial seek at most once, and exactly once
      when the flag ends up set from a state where it was clear. */
  lemma {:induction false} InitialSeekAcceptedAtMostOnce(f: Flags, calls: seq<StateChange>)
    ensures SeeksAccepted(f, calls) == if !f.initialSeekPerformed && Run(f, calls).initialSeekPerformed then 1 else 0
    ensures f.initialSeekPerformed ==> SeeksAccepted(f, calls) == 0
    decreases |calls|
  {
    if calls != [] {
      var g := AfterStateChange(f, calls[0]);
      InitialSeekAcceptedAtMostOnce(g, calls[1..]);
      if g.initialSeekPerformed {
        InitialSeekStaysPerformed(g, calls[1..]);
      }
    }
  }

  /** A failed initial seek is retried: as long as the flag stays clear,
      every successful PAUSED to PLAYING change sends the seek again. */
  lemma {:induction false} FailedSeekIsRetried(f: Flags, calls: seq<StateChange>)
    requires !Run(f, calls).initialSeekPerformed
    ensures SeeksSent(f, calls) == PlayingEntries(calls)
    decreases |calls|
  {
    if calls != [] {
      var g := AfterStateChange(f, calls[0]);
      if g.initialSeekPerformed {
        InitialSeekStaysPerformed(g, calls[1..]);
        assert false;
      }
      FailedSeekIsRetried(g, calls[1..]);
    }
  }

  /** From a fresh bin, the seek is sent on the first PAUSED to PLAYING change,
      resent on the second after a refusal, and not sent on the third after
      being accepted. */
  lemma RetryExample()
    ensures var calls := [StateChange(PAUSED_TO_PLAYING, Success, false),
                          StateChange(PLAYING_TO_PAUSED, Success, true),
                          StateChange(PAUSED_TO_PLAYING, Async, true),
                          StateChange(PLAYING_TO_PAUSED, Success, true),
                          StateChange(PAUSED_TO_PLAYING, Success, true)];
      SeeksSent(INITIAL_FLAGS, calls) == 2 && SeeksAccepted(INITIAL_FLAGS, calls) == 1 &&
      Run(INITIAL_FLAGS, calls) == Flags(true, true)
  {
    var refused := StateChange(PAUSED_TO_PLAYING, Success, false);
    var pause := StateChange(PLAYING_TO_PAUSED, Success, true);
    var accepted := StateChange(PAUSED_TO_PLAYING, Async, true);
    var replay := StateChange(PAUSED_TO_PLAYING, Success, true);
    var calls := [refused, pause, accepted, pause, replay];
    assert calls[1..] == [pause, accepted, pause, replay];
    assert calls[2..] == [accepted, pause, replay];
    assert calls[3..] == [pause, replay];
    assert calls[4..] == [replay];
    assert calls[5..] == [];
    var f1 := AfterStateChange(INITIAL_FLAGS, refused);
    assert f1 == Flags(false, true);
    var f2 := AfterStateChange(f1, pause);
    assert f2 == Flags(false, false);
    var f3 := AfterStateChange(f2, accepted);
    assert f3 == Flags(true, true);
    var f4 := AfterStateChange(f3, pause);
    assert f4 == Flags(true, false);
    var f5 := AfterStateChange(f4, replay);
    assert f5 == Flags(true, true);
    assert Run(f5, calls[5..]) == f5 && SeeksSent(f5, calls[5..]) == 0 && SeeksAccepted(f5, calls[5..]) == 0;
    assert Run(f4, calls[4..]) == f5 && SeeksSent(f4, calls[4..]) == 0 && SeeksAccepted(f4, calls[4..]) == 0;
    assert Run(f3, calls[3..]) == f5 && SeeksSent(f3, calls[3..]) == 0 && SeeksAccepted(f3, calls[3..]) == 0;
    assert Run(f2, calls[2..]) == f5 && SeeksSent(f2, calls[2..]) == 1 && SeeksAccepted(f2, calls[2..]) == 1;
    assert Run(f1, calls[1..]) == f5 && SeeksSent(f1, calls[1..]) == 1 && SeeksAccepted(f1, calls[1..]) == 1;
  }

  class TsShifterBin {
    var initialSeekPerformed: bool
    var pipelineIsPlaying: bool
    /** Size of one cache slot of the ring buffer, in bytes. */
    const cacheSlotSize: nat
    /** The indexer's "pcr-pid" as last set by the bin (None: never set). */
    var indexerPcrPid: Option<Pid>
    /** The timeshifter's "cache-size" and "allocator-name". */
    var cacheSize: int
    var allocatorName: Option<string>
    /** Events sent to the seeker, in order. */
    var seekerEvents: seq<SeekEvent>
    /** Messages handed on to the parent class, in order. */
    var forwarded: seq<Message>

    ghost function Lifecycle(): Flags
      reads this
    {
      Flags(initialSeekPerformed, pipelineIsPlaying)
    }

    /** gst_ts_shifter_bin_init, the flag initialisation. The timeshifter
        brings its own initial cache size and allocator name. */
    constructor (slotSize: nat, shifterCacheSize: int, shifterAllocator: Option<string>)
      ensures Lifecycle() == INITIAL_FLAGS
      ensures cacheSlotSize == slotSize
      ensures indexerPcrPid == None
      ensures cacheSize == shifterCacheSize && allocatorName == shifterAllocator
      ensures seekerEvents == [] && forwarded == []
    {
      initialSeekPerformed := false;
      pipelineIsPlaying := false;
      cacheSlotSize := slotSize;
      indexerPcrPid := None;
      cacheSize := shifterCacheSize;
      allocatorName := shifterAllocator;
      seekerEvents := [];
      forwarded := [];
    }

    /** gst_ts_shifter_bin_perform_initial_seek: does nothing once performed;
        otherwise sends the seek, and records it as performed only when the
        seeker accepts it (`sendOk`). */
    method PerformInitialSeek(sendOk: bool)
      modifies this`initialSeekPerformed, this`seekerEvents
      ensures Lifecycle() == AfterInitialSeek(old(Lifecycle()), sendOk)
      ensures seekerEvents == old(seekerEvents) + (if old(initialSeekPerformed) then [] else [INITIAL_SEEK])
    {
      if initialSeekPerformed {
        return;
      }
      seekerEvents := seekerEvents + [INITIAL_SEEK];
      if sendOk {
        initialSeekPerformed := true;
      }
    }

    /** gst_ts_shifter_bin_change_state: `parent` is what the parent class
        returned; a FAILURE is passed back and changes nothing. */
    method ChangeState(transition: Transition, parent: StateChangeReturn, sendOk: bool)
      returns (ret: StateChangeReturn)
      modifies this`initialSeekPerformed, this`pipelineIsPlaying, this`seekerEvents
      ensures ret == parent
      ensures Lifecycle() == AfterStateChange(old(Lifecycle()), StateChange(transition, parent, sendOk))
      ensures seekerEvents == old(seekerEvents) +
        (if SendsInitialSeek(old(Lifecycle()), StateChange(transition, parent, sendOk)) then [INITIAL_SEEK] else [])
    {
      ret := parent;
      if ret == Failure {
        return;
      }
      if transition == PAUSED_TO_PLAYING {
        pipelineIsPlaying := true;
        if !initialSeekPerformed {
          PerformInitialSeek(sendOk);
        }
      } else if transition == PLAYING_TO_PAUSED {
        pipelineIsPlaying := false;
      }
    }

    /** gst_ts_shifter_bin_handle_message: a "pmt" message whose section and
        PMT parse sets the indexer's PCR PID; every message then goes on to
        the parent class. */
    method HandleMessage(msg: Message)
      modifies this`indexerPcrPid, this`forwarded
      ensures indexerPcrPid == if PcrPidUpdate(msg).Some? then PcrPidUpdate(msg) else old(indexerPcrPid)
      ensures forwarded == old(forwarded) + [msg]
    {
      if msg.name == "pmt" {
        if msg.section.Some? {
          var section := msg.section.value;
          if section.pmt.Some? {
            indexerPcrPid := Some(section.pmt.value.pcrPid);
          }
        }
      }
      forwarded := forwarded + [msg];
    }

    /** g_object_set_property on the bin: GObject checks the value against the
        installed parameter spec, then gst_ts_shifter_bin_set_property hands
        it unchanged to the timeshifter. */
    method SetProperty(propId: nat, value: PropValue) returns (accepted: bool)
      modifies this`cacheSize, this`allocatorName
      ensures accepted == Accepts(cacheSlotSize, propId, value)
      ensures accepted && propId == PROP_CACHE_SIZE ==> cacheSize == value.n && allocatorName == old(allocatorName)
      ensures accepted && propId == PROP_ALLOCATOR_NAME ==> allocatorName == value.s && cacheSize == old(cacheSize)
      ensures !accepted ==> cacheSize == old(cacheSize) && allocatorName == old(allocatorName)
    {
      accepted := Accepts(cacheSlotSize, propId, value);
      if !accepted {
        return;
      }
      if propId == PROP_CACHE_SIZE {
        cacheSize := value.n;
      } else if propId == PROP_ALLOCATOR_NAME {
        allocatorName := value.s;
      }
    }

    /** gst_ts_shifter_bin_get_property: reads the timeshifter's value;
        an id the bin does not install yields nothing. */
    method GetProperty(propId: nat) returns (value: Option<PropValue>)
      ensures propId == PROP_CACHE_SIZE ==> value == Some(UInt64Value(cacheSize))
      ensures propId == PROP_ALLOCATOR_NAME ==> value == Some(StringValue(allocatorName))
      ensures propId != PROP_CACHE_SIZE && propId != PROP_ALLOCATOR_NAME ==> value == None
    {
      if propId == PROP_CACHE_SIZE {
        value := Some(UInt64Value(cacheSize));
      } else if propId == PROP_ALLOCATOR_NAME {
        value := Some(StringValue(allocatorName));
      } else {
        value := None;
      }
    }
  }

  /** A cache-size inside the declared range, set through the bin, reads
      back unchanged. */
  method CacheSizeRoundTrip(bin: TsShifterBin, size: int) returns (read: Option<PropValue>)
    requires MinCacheSize(bin.cacheSlotSize) <= size <= MAX_UINT64
    modifies bin
    ensures read == Some(UInt64Value(size))
  {
    var accepted := bin.SetProperty(PROP_CACHE_SIZE, UInt64Value(size));
    read := bin.GetProperty(PROP_CACHE_SIZE);
  }
}
