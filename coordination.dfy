/** The distributed coordination function (Dcf) of a station, as transitions on its state: the
    forced-traffic placeholders ("FT NDF", null-data frames addressed to the access point), the
    single frame-sequence and single-transmission guards, the window-offset decision table applied
    to received frames, their routing, failed frames, and the consecutive-data re-grant after an
    ACK. The frame-sequence handler, the recovery procedure, the ACK handler and the recipient
    data service are foreign; what the coordinator asks of them is recorded as events. */
module Coordination {
  import opened Common
  import opened ChannelAccess

  // ---------------------------------------------------------------------------------------------
  // Configuration
  // ---------------------------------------------------------------------------------------------

  /** Module parameters read only under a forced-traffic mechanism. */
  datatype DcfParams = DcfParams(mechanism: Mechanism, navExtension: nat, isFronthaulAffectedAp: bool,
                                 alpha: real, apAddress: MacAddress)

  /** access is the configuration of the owned channel access function; modeSetCwMin and sifs
      come from the mode set, address from the MAC. */
  datatype DcfConfig = DcfConfig(
    access: DcafConfig,
    mechanism: Mechanism,
    navExtension: nat,
    isFronthaulAffectedAp: bool,
    alpha: real,
    apAddress: MacAddress,
    address: MacAddress,
    modeSetCwMin: int,
    sifs: nat)

  /** Outside the cefi and okamoto mechanisms the NAV is not extended, the station is no
      fronthaul-affected access point, the re-grant probability is 1 and the access point
      address stays unspecified. */
  function ConfigureDcf(access: DcafConfig, p: DcfParams, address: MacAddress, modeSetCwMin: int, sifs: nat): (c: DcfConfig)
    ensures c.access == access && c.mechanism == p.mechanism && c.address == address
    ensures c.modeSetCwMin == modeSetCwMin && c.sifs == sifs
    ensures IsForcedTrafficMechanism(p.mechanism) ==>
              c.navExtension == p.navExtension && c.isFronthaulAffectedAp == p.isFronthaulAffectedAp &&
              c.alpha == p.alpha && c.apAddress == p.apAddress
    ensures !IsForcedTrafficMechanism(p.mechanism) ==>
              c.navExtension == 0 && !c.isFronthaulAffectedAp && c.alpha == 1.0 && c.apAddress == Unspecified
  {
    if IsForcedTrafficMechanism(p.mechanism) then
      DcfConfig(access, p.mechanism, p.navExtension, p.isFronthaulAffectedAp, p.alpha, p.apAddress,
                address, modeSetCwMin, sifs)
    else
      DcfConfig(access, p.mechanism, 0, false, 1.0, Unspecified, address, modeSetCwMin, sifs)
  }

  // ---------------------------------------------------------------------------------------------
  // State
  // ---------------------------------------------------------------------------------------------

  /** What the coordinator asks of its foreign collaborators, and the signals it emits. */
  datatype Event =
    | SequenceStarted
    | SequenceFinished
    | ResponseProcessed(frame: Frame)
    | ReceivedAsRecipient(frame: Frame)
    | Dropped(frame: Frame, reason: DropReason)
    | LinkBroken(frame: Frame)
    | Transmitted(frame: Frame, ifs: Time)
    | StartRxTimeout
    | CtsProcessed(frame: Frame)
    | AckProcessed(frame: Frame)
    | SequenceTransmissionComplete
    | RadioTransmissionFinished
    | RecoveryFrameFailed(frame: Frame)
    | RecoveryRetryLimitReached(frame: Frame)
    | AckHandlerFrameFailed(frame: Frame)
    | AckHandlerFrameDropped(frame: Frame)

  /** The runtime errors and failed assertions the coordinator can raise. */
  datatype DcfError = NoCallback | TimerAlreadyScheduled | UnknownControlResponse

  /** The station: the channel access state it owns, whether a frame sequence runs, its timers
      (deadlines, None when not scheduled), the placeholder flag and counter, and the events. */
  datatype Station = Station(
    access: DcafState,
    sequenceRunning: bool,
    startRxTimer: Option<Time>,
    endTransmissionTimer: Option<Time>,
    channelGrantedEvent: Option<Time>,
    initialFtNdfEnqueuing: Option<Time>,
    ndfWasSent: bool,
    ndfPacketCounter: nat,
    events: seq<Event>)

  /** After initialization: under cefi every station other than the fronthaul-affected access
      point schedules its first placeholder at once, to get forced traffic going. */
  function InitialStation(c: DcfConfig, a: DcafState, now: Time): (s: Station)
    ensures s.access == a && !s.sequenceRunning && !s.ndfWasSent && s.ndfPacketCounter == 0 && s.events == []
    ensures s.initialFtNdfEnqueuing.Some? <==> c.mechanism == Cefi && !c.isFronthaulAffectedAp
    ensures s.startRxTimer.None? && s.endTransmissionTimer.None? && s.channelGrantedEvent.None?
  {
    Station(a, false, None, None, None,
            if c.mechanism == Cefi && !c.isFronthaulAffectedAp then Some(now) else None,
            false, 0, [])
  }

  // ---------------------------------------------------------------------------------------------
  // Placeholders, grants and releases
  // ---------------------------------------------------------------------------------------------

  /** The placeholder: a null-data header addressed to the access point, duration 0, no retry. */
  function Placeholder(c: DcfConfig): Frame
  {
    Frame(NullData, c.apAddress, Unspecified, Unspecified, 0, false)
  }

  /** enqueueFtNdfFrame: one placeholder at the back of the pending queue. */
  function FtNdfEnqueued(c: DcfConfig, s: Station): (r: Station)
    ensures r.access.queue == s.access.queue + [Placeholder(c)]
    ensures r == s.(access := s.access.(queue := r.access.queue))
    ensures IsFtNdfFrameEnqueued(r.access.queue) <==> IsFtNdfFrameEnqueued(s.access.queue) || s.access.queue == []
  {
    s.(access := s.access.(queue := s.access.queue + [Placeholder(c)]))
  }

  /** releaseChannel with this coordinator as the callback: under cefi a station that runs dry
      gets a placeholder, so it always has something to contend for. */
  function Release(c: DcfConfig, s: Station): (r: Station)
    ensures r == s.(access := Released(s.access).(queue := r.access.queue))
    ensures !r.access.owning && !r.access.hasCallback
    ensures WantsPlaceholder(c.access, s.access) ==> r.access.queue == [Placeholder(c)]
    ensures !WantsPlaceholder(c.access, s.access) ==> r.access.queue == s.access.queue
    ensures c.access.mechanism == Cefi && !c.access.isFronthaulAffectedAp ==>
              HasFrameToTransmit(r.access.queue, r.access.inProgress)
  {
    var a := Released(s.access);
    if WantsPlaceholder(c.access, s.access) then s.(access := a.(queue := a.queue + [Placeholder(c)]))
    else s.(access := a)
  }

  /** channelGranted: a sequence is started only when none runs, never a second one; a running
      one with nothing left to send gives the channel back. */
  function ChannelGranted(c: DcfConfig, s: Station): (r: Station)
    ensures r.sequenceRunning
    ensures !s.sequenceRunning ==> r == s.(sequenceRunning := true, events := s.events + [SequenceStarted])
    ensures s.sequenceRunning ==> r.events == s.events
    ensures s.sequenceRunning && !HasFrameToTransmit(s.access.queue, s.access.inProgress) ==> r == Release(c, s)
    ensures HasFrameToTransmit(s.access.queue, s.access.inProgress) ==> r.access == s.access
    ensures s.sequenceRunning && HasFrameToTransmit(s.access.queue, s.access.inProgress) ==> r == s
  {
    if !s.sequenceRunning then s.(sequenceRunning := true, events := s.events + [SequenceStarted])
    else if !HasFrameToTransmit(s.access.queue, s.access.inProgress) then Release(c, s)
    else s
  }

  /** The timing and both windows are left alone. */
  predicate WindowsUntouched(a: DcafState, b: DcafState)
  {
    a.timing == b.timing && a.cw == b.cw && a.cwOffset == b.cwOffset
  }

  /** requestChannel with this coordinator as the callback; an owned channel is granted at once. */
  function RequestChannel(c: DcfConfig, s: Station): (r: Station)
    ensures WindowsUntouched(s.access, r.access)
    ensures r == s.(access := r.access, sequenceRunning := r.sequenceRunning, events := r.events)
    ensures r.access.contention == Requested(c.access, s.access).contention
    ensures !s.access.owning ==> r == s.(access := Requested(c.access, s.access))
    ensures s.access.owning ==> r.sequenceRunning && (s.sequenceRunning ==> r.events == s.events)
    ensures HasFrameToTransmit(s.access.queue, s.access.inProgress) ==>
              r.access.hasCallback && r.access.owning == s.access.owning &&
              r.access.queue == s.access.queue && r.access.inProgress == s.access.inProgress
  {
    var s1 := s.(access := Requested(c.access, s.access));
    if s.access.owning then ChannelGranted(c, s1) else s1
  }

  /** channelAccessGranted followed by channelGranted; it fails when no callback is set. */
  function AccessGranted(c: DcfConfig, s: Station): (r: Result<Station, DcfError>)
    ensures r.Ok? <==> s.access.hasCallback
    ensures r.Err? ==> r.error == NoCallback
    ensures r.Ok? ==> r.value.sequenceRunning && WindowsUntouched(s.access, r.value.access)
    ensures r.Ok? ==>
              (r.value.access.owning <==> !s.sequenceRunning || HasFrameToTransmit(s.access.queue, s.access.inProgress))
    ensures r.Ok? && !s.sequenceRunning ==> r.value.events == s.events + [SequenceStarted]
    ensures r.Ok? && s.sequenceRunning ==> r.value.events == s.events
    ensures r.Ok? ==> r.value == s.(access := r.value.access, sequenceRunning := true, events := r.value.events)
    ensures r.Ok? ==> r.value.access.contention == s.access.contention && r.value.access.inProgress == s.access.inProgress
    ensures r.Ok? ==>
              r.value.access.queue ==
                (if s.sequenceRunning && WantsPlaceholder(c.access, s.access) then [Placeholder(c)] else s.access.queue)
  {
    if !s.access.hasCallback then Err(NoCallback)
    else Ok(ChannelGranted(c, s.(access := Granted(s.access))))
  }

  /** The contention countdown reached zero and grants the channel: the coordinator takes it and
      starts a frame sequence unless one runs. */
  function ContentionEnded(c: DcfConfig, s: Station): (r: Result<Station, DcfError>)
    requires s.access.contention.inProgress
    ensures r.Ok? <==> s.access.hasCallback
    ensures r.Err? ==> r.error == NoCallback
    ensures r.Ok? ==> !r.value.access.contention.inProgress && r.value.access.contention.calls == s.access.contention.calls
    ensures r.Ok? ==> r.value.sequenceRunning && WindowsUntouched(s.access, r.value.access)
    ensures r.Ok? ==>
              (r.value.access.owning <==> !s.sequenceRunning || HasFrameToTransmit(s.access.queue, s.access.inProgress))
    ensures r.Ok? && !s.sequenceRunning ==> r.value.events == s.events + [SequenceStarted]
    ensures r.Ok? && s.sequenceRunning ==> r.value.events == s.events
    ensures r.Ok? ==> r.value == s.(access := r.value.access, sequenceRunning := true, events := r.value.events)
    ensures r.Ok? ==> r.value.access.inProgress == s.access.inProgress
    ensures r.Ok? ==>
              r.value.access.queue ==
                (if s.sequenceRunning && WantsPlaceholder(c.access, s.access) then [Placeholder(c)] else s.access.queue)
  {
    AccessGranted(c, s.(access := s.access.(contention := s.access.contention.(inProgress := false))))
  }

  /** Cancelling the countdown and requesting the channel anew, for a station that neither owns
      the channel nor is the access point: one cancel if a countdown ran, then one start, extended
      by offset for a cefi station with a placeholder at the head of its queue. */
  function RestartedContention(c: DcfConfig, a: DcafState, offset: int): Contention
  {
    var t := a.timing;
    Contention(true, CancelIfRunning(a.contention).calls +
      [if c.access.mechanism == Cefi && IsFtNdfFrameEnqueued(a.queue) then StartExtended(a.cw, t.ifs, t.eifs, t.slotTime, offset)
       else Start(a.cw, t.ifs, t.eifs, t.slotTime)])
  }

  // ---------------------------------------------------------------------------------------------
  // Frames from above, and the end of a frame sequence
  // ---------------------------------------------------------------------------------------------

  /** processUpperFrame: a placeholder at the head gives way to the real frame (and its extended
      contention is cancelled); the frame joins the back of the queue and the channel is requested. */
  function ProcessUpperFrame(c: DcfConfig, s: Station, f: Frame): (r: Station)
    requires IsDataOrMgmt(f.kind)
    ensures r.access.queue ==
              (if IsFtNdfFrameEnqueued(s.access.queue) then s.access.queue[1..] else s.access.queue) + [f]
    ensures r.access.inProgress == s.access.inProgress
    ensures r.access.hasCallback
    ensures WindowsUntouched(s.access, r.access)
    ensures IsFtNdfFrameEnqueued(s.access.queue) && !s.access.owning && !c.access.isFronthaulAffectedAp ==>
              r.access.contention == RestartedContention(c, s.access.(queue := r.access.queue), s.access.cwOffset)
    ensures IsFtNdfFrameEnqueued(s.access.queue) && (s.access.owning || c.access.isFronthaulAffectedAp) ==>
              r.access.contention == CancelIfRunning(s.access.contention)
    ensures !IsFtNdfFrameEnqueued(s.access.queue) ==>
              r.access.contention == Requested(c.access, s.access.(queue := r.access.queue)).contention
    ensures OnlyAccessAndSequence(s, r)
    ensures s.access.owning ==> r.sequenceRunning
    ensures !s.access.owning ==> r.sequenceRunning == s.sequenceRunning && r.events == s.events
  {
    var s1 := if IsFtNdfFrameEnqueued(s.access.queue) then
                s.(access := ContentionCancelled(s.access.(queue := s.access.queue[1..])))
              else s;
    RequestChannel(c, s1.(access := s1.access.(queue := s1.access.queue + [f])))
  }

  /** A frame arriving while only a placeholder waits replaces the extended contention by an
      ordinary one with the same window. */
  lemma UpperFrameRestartsOrdinaryContention(c: DcfConfig, s: Station, f: Frame)
    requires IsDataOrMgmt(f.kind) && f.kind != NullData
    requires s.access.queue == [Placeholder(c)] && !s.access.owning && !c.access.isFronthaulAffectedAp
    ensures var r := ProcessUpperFrame(c, s, f);
      var t := s.access.timing;
      r.access.queue == [f] &&
      r.access.contention == Contention(true, CancelIfRunning(s.access.contention).calls + [Start(s.access.cw, t.ifs, t.eifs, t.slotTime)])
  {
    var s1 := s.(access := ContentionCancelled(s.access.(queue := [])));
    var s2 := s1.(access := s1.access.(queue := [f]));
    assert RequestDecision(c.access, s2.access) == StartContention;
  }

  /** frameSequenceFinished: the channel is released and, if anything is left, requested again. */
  function FrameSequenceFinished(c: DcfConfig, s: Station): (r: Station)
    ensures !r.sequenceRunning && !r.access.owning
    ensures r.access.hasCallback <==> HasFrameToTransmit(r.access.queue, r.access.inProgress)
    ensures r.access.queue == (if WantsPlaceholder(c.access, s.access) then [Placeholder(c)] else s.access.queue)
    ensures r.access.inProgress == s.access.inProgress && WindowsUntouched(s.access, r.access)
    ensures r == s.(access := r.access, sequenceRunning := false, events := s.events + [SequenceFinished])
    ensures HasFrameToTransmit(r.access.queue, r.access.inProgress) ==>
              r.access.contention == Requested(c.access, Released(s.access).(queue := r.access.queue)).contention
    ensures !HasFrameToTransmit(r.access.queue, r.access.inProgress) ==> r.access.contention == s.access.contention
  {
    var s1 := Release(c, s.(sequenceRunning := false, events := s.events + [SequenceFinished]));
    if HasFrameToTransmit(s1.access.queue, s1.access.inProgress) then RequestChannel(c, s1) else s1
  }

  /** Under cefi a station never stops contending: after every frame sequence the channel is
      requested again and a countdown runs, on a placeholder if there is nothing else. */
  lemma {:induction false} ForcedTrafficKeepsContending(c: DcfConfig, s: Station)
    requires c.access.mechanism == Cefi && !c.access.isFronthaulAffectedAp
    ensures var r := FrameSequenceFinished(c, s);
      r.access.hasCallback && r.access.contention.inProgress
  {
    var s1 := Release(c, s.(sequenceRunning := false, events := s.events + [SequenceFinished]));
    assert HasFrameToTransmit(s1.access.queue, s1.access.inProgress);
    var d := RequestDecision(c.access, s1.access);
    assert d != GrantImmediately && d != Abstain;
  }

  // ---------------------------------------------------------------------------------------------
  // Transmission
  // ---------------------------------------------------------------------------------------------

  /** txTransmitFrame: a frame goes to the transmitter only while no transmission is outstanding;
      it arms the end-of-transmission timer and counts placeholders. */
  function TxTransmitFrame(s: Station, f: Frame, ifs: Time, airtime: nat, now: Time): (r: Station)
    ensures s.endTransmissionTimer.Some? ==> r == s
    ensures s.endTransmissionTimer.None? ==>
              r == s.(endTransmissionTimer := Some(now + ifs + airtime),
                      ndfPacketCounter := r.ndfPacketCounter, events := s.events + [Transmitted(f, ifs)])
    ensures s.endTransmissionTimer.None? ==>
              r.ndfPacketCounter == s.ndfPacketCounter + (if f.kind == NullData then 1 else 0)
  {
    if s.endTransmissionTimer.None? then
      s.(endTransmissionTimer := Some(now + ifs + airtime),
         ndfPacketCounter := if f.kind == NullData then s.ndfPacketCounter + 1 else s.ndfPacketCounter,
         events := s.events + [Transmitted(f, ifs)])
    else s
  }

  /** The end-of-transmission timer fires: the radio goes back to receiving. */
  function EndTransmissionTimerFired(s: Station): (r: Station)
    requires s.endTransmissionTimer.Some?
    ensures r.endTransmissionTimer.None? && r.events == s.events + [RadioTransmissionFinished]
    ensures r == s.(endTransmissionTimer := None, events := r.events)
  {
    s.(endTransmissionTimer := None, events := s.events + [RadioTransmissionFinished])
  }

  /** The inputs that drive the transmitter: a transmission request or the end-of-transmission timer. */
  datatype TxInput = TxRequest(frame: Frame, ifs: Time, airtime: nat, now: Time) | TxTimerFired

  function TxStep(s: Station, i: TxInput): Station
  {
    match i
    case TxRequest(f, ifs, airtime, now) => TxTransmitFrame(s, f, ifs, airtime, now)
    case TxTimerFired => if s.endTransmissionTimer.Some? then EndTransmissionTimerFired(s) else s
  }

  function TxRun(s: Station, ins: seq<TxInput>): Station
    decreases |ins|
  {
    if ins == [] then s else TxRun(TxStep(s, ins[0]), ins[1..])
  }

  function CountTransmitted(es: seq<Event>): nat
    decreases |es|
  {
    if es == [] then 0
    else CountTransmitted(es[..|es| - 1]) + (if es[|es| - 1].Transmitted? then 1 else 0)
  }

  function CountTimerFirings(ins: seq<TxInput>): nat
    decreases |ins|
  {
    if ins == [] then 0 else (if ins[0].TxTimerFired? then 1 else 0) + CountTimerFirings(ins[1..])
  }

  function Armed(s: Station): nat
  {
    if s.endTransmissionTimer.Some? then 1 else 0
  }

  lemma CountTransmittedAppend(es: seq<Event>, e: Event)
    ensures CountTransmitted(es + [e]) == CountTransmitted(es) + (if e.Transmitted? then 1 else 0)
  {
    assert (es + [e])[..|es|] == es;
  }

  /** At most one transmission is outstanding: over any run, the frames handed to the transmitter
      exceed the end-of-transmission timer firings by at most one. */
  lemma {:induction false} TransmissionsFollowTimerFirings(s: Station, ins: seq<TxInput>)
    ensures var r := TxRun(s, ins);
      CountTransmitted(s.events) <= CountTransmitted(r.events) &&
      CountTransmitted(r.events) - CountTransmitted(s.events) + Armed(s) <= CountTimerFirings(ins) + Armed(r)
    decreases |ins|
  {
    if ins != [] {
      var s1 := TxStep(s, ins[0]);
      if ins[0].TxRequest? && s.endTransmissionTimer.None? {
        CountTransmittedAppend(s.events, Transmitted(ins[0].frame, ins[0].ifs));
      } else if ins[0].TxTimerFired? && s.endTransmissionTimer.Some? {
        CountTransmittedAppend(s.events, RadioTransmissionFinished);
      }
      TransmissionsFollowTimerFirings(s1, ins[1..]);
    }
  }

  /** The duration field is padded by the NAV extension: twice for ordinary frames, four times
      for an RTS (which protects a whole exchange); a zero duration is left alone. */
  function PaddedDuration(kind: FrameKind, duration: nat, navExtension: nat): (r: nat)
    ensures duration == 0 ==> r == 0
    ensures duration != 0 && kind == Rts ==> r == duration + 4 * navExtension
    ensures duration != 0 && kind != Rts ==> r == duration + 2 * navExtension
  {
    if kind == Rts && duration != 0 then duration + 4 * navExtension
    else if duration != 0 then duration + 2 * navExtension
    else duration
  }

  /** Outside the forced-traffic mechanisms durations go out as computed. */
  lemma StandardDurationsUnpadded(access: DcafConfig, p: DcfParams, address: MacAddress, cwMin: int, sifs: nat,
                                  kind: FrameKind, duration: nat)
    requires !IsForcedTrafficMechanism(p.mechanism)
    ensures PaddedDuration(kind, duration, ConfigureDcf(access, p, address, cwMin, sifs).navExtension) == duration
  {
  }

  /** transmitFrame: a placeholder raises the window offset and sets the placeholder flag, any
      other frame clears it; this happens even when the transmitter is still busy. */
  function TransmitFrame(c: DcfConfig, s: Station, f: Frame, ifs: Time, duration: nat, airtime: nat, now: Time): (r: Station)
    ensures f.kind == NullData ==> r.ndfWasSent && r.access == OffsetIncremented(s.access)
    ensures f.kind != NullData ==> !r.ndfWasSent && r.access == s.access
    ensures s.endTransmissionTimer.None? ==>
              r.events == s.events + [Transmitted(f.(durationField := PaddedDuration(f.kind, duration, c.navExtension)), ifs)]
    ensures s.endTransmissionTimer.Some? ==> r.events == s.events && r.ndfPacketCounter == s.ndfPacketCounter
    ensures s.endTransmissionTimer.None? ==>
              r.endTransmissionTimer == Some(now + ifs + airtime) &&
              r.ndfPacketCounter == s.ndfPacketCounter + (if f.kind == NullData then 1 else 0)
    ensures s.endTransmissionTimer.Some? ==> r.endTransmissionTimer == s.endTransmissionTimer
    ensures r == s.(access := r.access, ndfWasSent := r.ndfWasSent, endTransmissionTimer := r.endTransmissionTimer,
                    ndfPacketCounter := r.ndfPacketCounter, events := r.events)
    ensures WindowsValid(s.access) ==> WindowsValid(r.access)
  {
    var s1 := if f.kind == NullData then s.(access := OffsetIncremented(s.access), ndfWasSent := true)
              else s.(ndfWasSent := false);
    TxTransmitFrame(s1, f.(durationField := PaddedDuration(f.kind, duration, c.navExtension)), ifs, airtime, now)
  }

  // ---------------------------------------------------------------------------------------------
  // Frames from below
  // ---------------------------------------------------------------------------------------------

  /** isSentByUs: only a data or management header carries the address3 that names the sender. */
  predicate IsSentByUs(c: DcfConfig, f: Frame): (r: bool)
    ensures r ==> IsDataOrMgmt(f.kind)
    ensures IsDataOrMgmt(f.kind) ==> (r <==> f.address3 == c.address)
  {
    IsDataOrMgmt(f.kind) && f.address3 == c.address
  }

  /** isForUs: addressed to this station, or multicast and not an echo of its own frame. */
  function IsForUs(c: DcfConfig, f: Frame): (r: bool)
    ensures f.receiver == c.address ==> r
    ensures r ==> f.receiver == c.address || IsMulticast(f.receiver)
    ensures IsMulticast(f.receiver) && !IsDataOrMgmt(f.kind) ==> r
    ensures IsMulticast(f.receiver) && f.receiver != c.address ==>
              (r <==> !(IsDataOrMgmt(f.kind) && f.address3 == c.address))
  {
    f.receiver == c.address || (IsMulticast(f.receiver) && !IsSentByUs(c, f))
  }

  /** The offset decision table for a received frame, in terms of the offset alone. */
  function OffsetAfterLowerFrame(c: DcfConfig, a: DcafState, ndfWasSent: bool, f: Frame, backoffSlots: int): int
  {
    if !IsFtNdfFrameEnqueued(a.queue) || !IsDataOrMgmt(f.kind) then a.cwOffset
    // real uplink traffic to the access point: the placeholders worked, leave the nulled state
    else if f.receiver == c.apAddress && f.kind != NullData then (if a.cwOffset == 0 then a.timing.cwMin else a.cwOffset)
    // downlink from the access point
    else if f.transmitter == c.apAddress then
      if ndfWasSent then 0
      else if a.cwOffset > c.modeSetCwMin then a.timing.cwMin
      else a.cwOffset
    else a.cwOffset
  }

  /** The received frame makes the station cancel its countdown and request the channel anew. */
  predicate RestartsContention(c: DcfConfig, s: Station, f: Frame, backoffSlots: int)
  {
    var a := s.access;
    IsFtNdfFrameEnqueued(a.queue) && IsDataOrMgmt(f.kind) &&
    ((f.receiver == c.apAddress && f.kind != NullData) ||
     (f.transmitter == c.apAddress &&
      (s.ndfWasSent || (a.cwOffset > c.modeSetCwMin && backoffSlots > a.timing.cwMin + a.cw))))
  }

  /** Only the channel access state, the sequence flag and the events may have changed. */
  predicate OnlyAccessAndSequence(s: Station, r: Station)
  {
    r == s.(access := r.access, sequenceRunning := r.sequenceRunning, events := r.events)
  }

  /** Case (a) of the table: real uplink traffic to the access point shows the placeholders
      worked; the countdown restarts and a nulled offset is reset to cwMin. */
  function UplinkSeen(c: DcfConfig, s: Station): (r: Station)
    ensures r.access.cwOffset == (if s.access.cwOffset == 0 then s.access.timing.cwMin else s.access.cwOffset)
    ensures r.access.timing == s.access.timing && r.access.cw == s.access.cw
    ensures OnlyAccessAndSequence(s, r)
    ensures !s.access.owning ==> r.access.hasCallback && r.sequenceRunning == s.sequenceRunning && r.events == s.events
    ensures !s.access.owning && !c.access.isFronthaulAffectedAp ==> r.access.contention.inProgress
    ensures !s.access.owning && !c.access.isFronthaulAffectedAp ==>
              r.access.contention == RestartedContention(c, s.access, s.access.cwOffset)
    ensures s.access.owning || c.access.isFronthaulAffectedAp ==> r.access.contention == CancelIfRunning(s.access.contention)
    ensures s.access.owning ==> r.sequenceRunning
    ensures WindowsValid(s.access) ==> WindowsValid(r.access)
  {
    var s2 := RequestChannel(c, s.(access := ContentionCancelled(s.access)));
    if s.access.cwOffset == 0 then s2.(access := OffsetReset(s2.access)) else s2
  }

  /** Whether downlink from the access point restarts the countdown (case (b) of the table). */
  predicate DownlinkRestarts(c: DcfConfig, s: Station, backoffSlots: int)
  {
    s.ndfWasSent || (s.access.cwOffset > c.modeSetCwMin && backoffSlots > s.access.timing.cwMin + s.access.cw)
  }

  /** Case (b) of the table: downlink right after a placeholder nulls the offset (placeholders as
      fast as possible); otherwise an offset above the mode set's cwMin is reset, restarting the
      countdown only when the remaining backoff exceeds the new offset plus the window. */
  function DownlinkSeen(c: DcfConfig, s: Station, backoffSlots: int): (r: Station)
    ensures r.access.cwOffset ==
              (if s.ndfWasSent then 0 else if s.access.cwOffset > c.modeSetCwMin then s.access.timing.cwMin else s.access.cwOffset)
    ensures r.access.timing == s.access.timing && r.access.cw == s.access.cw
    ensures OnlyAccessAndSequence(s, r)
    ensures !DownlinkRestarts(c, s, backoffSlots) ==> r == s.(access := s.access.(cwOffset := r.access.cwOffset))
    ensures DownlinkRestarts(c, s, backoffSlots) && !s.access.owning ==>
              r.access.hasCallback && r.sequenceRunning == s.sequenceRunning && r.events == s.events
    ensures DownlinkRestarts(c, s, backoffSlots) && !s.access.owning && !c.access.isFronthaulAffectedAp ==>
              r.access.contention.inProgress
    ensures DownlinkRestarts(c, s, backoffSlots) && !s.access.owning && !c.access.isFronthaulAffectedAp ==>
              r.access.contention == RestartedContention(c, s.access, r.access.cwOffset)
    ensures DownlinkRestarts(c, s, backoffSlots) && (s.access.owning || c.access.isFronthaulAffectedAp) ==>
              r.access.contention == CancelIfRunning(s.access.contention)
    ensures DownlinkRestarts(c, s, backoffSlots) && s.access.owning ==> r.sequenceRunning
    ensures WindowsValid(s.access) ==> WindowsValid(r.access)
  {
    var a := s.access;
    if s.ndfWasSent then RequestChannel(c, s.(access := ContentionCancelled(OffsetNulled(a))))
    else if a.cwOffset > c.modeSetCwMin then
      var s2 := s.(access := OffsetReset(a));
      if backoffSlots > s2.access.cwOffset + s2.access.cw then RequestChannel(c, s2.(access := ContentionCancelled(s2.access)))
      else s2
    else s
  }

  /** The first half of processLowerFrame: the offset table, applied only while a placeholder
      waits at the head, and the reset of the placeholder flag by any data or management frame.
      backoffSlots is what the countdown reports after the offset reset. */
  function LowerFrameChannelAccess(c: DcfConfig, s: Station, f: Frame, backoffSlots: int): (r: Station)
    ensures r.access.cwOffset == OffsetAfterLowerFrame(c, s.access, s.ndfWasSent, f, backoffSlots)
    ensures r.access.timing == s.access.timing && r.access.cw == s.access.cw
    ensures IsDataOrMgmt(f.kind) ==> !r.ndfWasSent
    ensures !IsDataOrMgmt(f.kind) ==> r.ndfWasSent == s.ndfWasSent
    ensures !IsFtNdfFrameEnqueued(s.access.queue) ==> r == s.(ndfWasSent := r.ndfWasSent)
    ensures !RestartsContention(c, s, f, backoffSlots) ==>
              r == s.(access := s.access.(cwOffset := r.access.cwOffset), ndfWasSent := r.ndfWasSent)
    ensures RestartsContention(c, s, f, backoffSlots) && !s.access.owning ==>
              r.access.hasCallback && r.sequenceRunning == s.sequenceRunning && r.events == s.events
    ensures RestartsContention(c, s, f, backoffSlots) && !s.access.owning && !c.access.isFronthaulAffectedAp ==>
              r.access.contention.inProgress
    ensures RestartsContention(c, s, f, backoffSlots) && !s.access.owning && !c.access.isFronthaulAffectedAp ==>
              r.access.contention ==
                RestartedContention(c, s.access, if f.receiver == c.apAddress && f.kind != NullData then s.access.cwOffset
                                                 else r.access.cwOffset)
    ensures RestartsContention(c, s, f, backoffSlots) && (s.access.owning || c.access.isFronthaulAffectedAp) ==>
              r.access.contention == CancelIfRunning(s.access.contention) && r.sequenceRunning == (s.access.owning || s.sequenceRunning)
    ensures r.startRxTimer == s.startRxTimer && r.endTransmissionTimer == s.endTransmissionTimer
    ensures WindowsValid(s.access) ==> WindowsValid(r.access)
  {
    var dataOrMgmt := IsDataOrMgmt(f.kind);
    var s1 :=
      if IsFtNdfFrameEnqueued(s.access.queue) && f.receiver == c.apAddress && f.kind != NullData && dataOrMgmt then
        UplinkSeen(c, s)
      else if IsFtNdfFrameEnqueued(s.access.queue) && dataOrMgmt && f.transmitter == c.apAddress then
        DownlinkSeen(c, s, backoffSlots)
      else s;
    if dataOrMgmt then s1.(ndfWasSent := false) else s1
  }

  /** Uplink data restarting the countdown carries the offset it had: the reset of a nulled offset
      takes effect only at the next request. */
  lemma UplinkRestartKeepsNulledOffset(c: DcfConfig, s: Station, f: Frame, backoffSlots: int)
    requires IsFtNdfFrameEnqueued(s.access.queue) && IsDataOrMgmt(f.kind) && f.kind != NullData
    requires f.receiver == c.apAddress && s.access.cwOffset == 0
    requires !s.access.owning && !c.access.isFronthaulAffectedAp && c.access.mechanism == Cefi
    ensures var r := LowerFrameChannelAccess(c, s, f, backoffSlots);
      var t := s.access.timing;
      r.access.cwOffset == t.cwMin &&
      r.access.contention.calls ==
        CancelIfRunning(s.access.contention).calls + [StartExtended(s.access.cw, t.ifs, t.eifs, t.slotTime, 0)]
  {
    var a1 := ContentionCancelled(s.access);
    assert RequestDecision(c.access, a1) == StartExtendedContention;
  }

  /** The forced-traffic cycle: downlink right after a placeholder nulls the offset, and the
      next placeholder sent restarts the offset ladder at cwMin. */
  lemma DownlinkAfterPlaceholderRestartsLadder(c: DcfConfig, s: Station, f: Frame, backoffSlots: int,
                                               ifs: Time, airtime: nat, now: Time)
    requires IsFtNdfFrameEnqueued(s.access.queue) && s.ndfWasSent
    requires IsDataOrMgmt(f.kind) && f.transmitter == c.apAddress && f.receiver != c.apAddress
    ensures var r := LowerFrameChannelAccess(c, s, f, backoffSlots);
      r.access.cwOffset == 0 && !r.ndfWasSent &&
      TransmitFrame(c, r, Placeholder(c), ifs, 0, airtime, now).access.cwOffset == s.access.timing.cwMin
  {
  }

  /** The second half of processLowerFrame: while a sequence runs, a frame is a response if it
      is for this station or no response is being awaited, and the receive timer is cancelled;
      otherwise a frame for this station goes to the recipient path. Everything else is dropped. */
  function Route(c: DcfConfig, s: Station, f: Frame): (r: Station)
    ensures |r.events| == |s.events| + 1 && r.events[..|s.events|] == s.events
    ensures r.events[|s.events|] == ResponseProcessed(f) <==>
              s.sequenceRunning && (IsForUs(c, f) || s.startRxTimer.None?)
    ensures r.events[|s.events|] == ReceivedAsRecipient(f) <==> !s.sequenceRunning && IsForUs(c, f)
    ensures r.events[|s.events|] == Dropped(f, NotAddressedToUs) <==>
              !IsForUs(c, f) && (!s.sequenceRunning || s.startRxTimer.Some?)
    ensures r.startRxTimer == (if s.sequenceRunning then None else s.startRxTimer)
    ensures r == s.(events := r.events, startRxTimer := r.startRxTimer)
  {
    if s.sequenceRunning then
      var e := if (!IsForUs(c, f) && s.startRxTimer.None?) || IsForUs(c, f) then ResponseProcessed(f)
               else Dropped(f, NotAddressedToUs);
      s.(events := s.events + [e], startRxTimer := None)
    else if IsForUs(c, f) then s.(events := s.events + [ReceivedAsRecipient(f)])
    else s.(events := s.events + [Dropped(f, NotAddressedToUs)])
  }

  /** processLowerFrame: the offset table first, then the routing, on the state the table left. */
  function ProcessLowerFrame(c: DcfConfig, s: Station, f: Frame, backoffSlots: int): (r: Station)
    ensures r.access.cwOffset == OffsetAfterLowerFrame(c, s.access, s.ndfWasSent, f, backoffSlots)
    ensures r.access.timing == s.access.timing && r.access.cw == s.access.cw
    ensures IsDataOrMgmt(f.kind) ==> !r.ndfWasSent
    ensures !IsDataOrMgmt(f.kind) ==> r.ndfWasSent == s.ndfWasSent
    ensures r.endTransmissionTimer == s.endTransmissionTimer
    ensures r.startRxTimer == (if r.sequenceRunning then None else s.startRxTimer)
    ensures !s.access.owning ==>
              r.sequenceRunning == s.sequenceRunning &&
              |r.events| == |s.events| + 1 && r.events[..|s.events|] == s.events &&
              (r.events[|s.events|] == ReceivedAsRecipient(f) <==> !s.sequenceRunning && IsForUs(c, f)) &&
              (r.events[|s.events|] == ResponseProcessed(f) <==>
                 s.sequenceRunning && (IsForUs(c, f) || s.startRxTimer.None?))
    ensures WindowsValid(s.access) ==> WindowsValid(r.access)
  {
    Route(c, LowerFrameChannelAccess(c, s, f, backoffSlots), f)
  }

  /** corruptedFrameReceived: the placeholder flag is cleared; a running sequence that awaits no
      response treats the corrupted frame as the start of one that never came. */
  function CorruptedFrameReceived(s: Station): (r: Station)
    ensures !r.ndfWasSent
    ensures r.events == s.events + (if s.sequenceRunning && s.startRxTimer.None? then [StartRxTimeout] else [])
    ensures r == s.(ndfWasSent := false, events := r.events)
  {
    var s1 := s.(ndfWasSent := false);
    if s.sequenceRunning && s.startRxTimer.None? then s1.(events := s1.events + [StartRxTimeout]) else s1
  }

  // ---------------------------------------------------------------------------------------------
  // Failed frames, responses and timers
  // ---------------------------------------------------------------------------------------------

  function RemoveAt<T>(xs: seq<T>, i: nat): (r: seq<T>)
    requires i < |xs|
    ensures |r| == |xs| - 1
    ensures multiset(r) == multiset(xs) - multiset{xs[i]}
    ensures forall j :: 0 <= j < i ==> r[j] == xs[j]
    ensures forall j :: i <= j < |r| ==> r[j] == xs[j + 1]
  {
    assert xs == xs[..i] + [xs[i]] + xs[i + 1..];
    xs[..i] + xs[i + 1..]
  }

  /** originatorProcessFailedFrame for the i-th in-progress frame: at the retry limit it leaves
      the in-progress store with one drop and one link-broken event; otherwise only its retry
      flag is set. */
  function OriginatorProcessFailedFrame(s: Station, i: nat, retryLimitReached: bool): (r: Station)
    requires i < |s.access.inProgress| && IsDataOrMgmt(s.access.inProgress[i].kind)
    ensures var f := s.access.inProgress[i];
      retryLimitReached ==>
        multiset(r.access.inProgress) == multiset(s.access.inProgress) - multiset{f} &&
        |r.access.inProgress| == |s.access.inProgress| - 1 &&
        r.events == s.events + [RecoveryFrameFailed(f), AckHandlerFrameFailed(f), RecoveryRetryLimitReached(f),
                                AckHandlerFrameDropped(f), Dropped(f, RetryLimitReached), LinkBroken(f)]
    ensures var f := s.access.inProgress[i];
      !retryLimitReached ==>
        |r.access.inProgress| == |s.access.inProgress| && r.access.inProgress[i] == f.(retry := true) &&
        (forall j :: 0 <= j < |s.access.inProgress| && j != i ==> r.access.inProgress[j] == s.access.inProgress[j]) &&
        r.events == s.events + [RecoveryFrameFailed(f), AckHandlerFrameFailed(f)]
    ensures r == s.(access := s.access.(inProgress := r.access.inProgress), events := r.events)
  {
    var f := s.access.inProgress[i];
    var failed := s.events + [RecoveryFrameFailed(f), AckHandlerFrameFailed(f)];
    if retryLimitReached then
      s.(access := s.access.(inProgress := RemoveAt(s.access.inProgress, i)),
         events := failed + [RecoveryRetryLimitReached(f), AckHandlerFrameDropped(f),
                             Dropped(f, RetryLimitReached), LinkBroken(f)])
    else
      s.(access := s.access.(inProgress := s.access.inProgress[i := f.(retry := true)]), events := failed)
  }

  /** The consecutive-data rule: a fronthaul-affected access point that has frames left grants
      itself the channel SIFS after its ACK, with probability alpha (draw is uniform in [0, 1)). */
  predicate Regrants(c: DcfConfig, s: Station, draw: real)
  {
    c.isFronthaulAffectedAp && HasFrameToTransmit(s.access.queue, s.access.inProgress) && draw < c.alpha
  }

  /** recipientProcessTransmittedControlResponseFrame: a sent CTS or ACK is handed to its procedure;
      scheduling the re-grant event while it is pending, or any other frame, is an error. */
  function RecipientProcessTransmittedControlResponseFrame(c: DcfConfig, s: Station, f: Frame, draw: real, now: Time): (r: Result<Station, DcfError>)
    requires 0.0 <= draw < 1.0
    ensures r == Err(UnknownControlResponse) <==> f.kind != Cts && f.kind != Ack
    ensures r == Err(TimerAlreadyScheduled) <==> f.kind == Ack && Regrants(c, s, draw) && s.channelGrantedEvent.Some?
    ensures r.Ok? ==> r.value.events == s.events + [if f.kind == Cts then CtsProcessed(f) else AckProcessed(f)]
    ensures r.Ok? ==>
              r.value.channelGrantedEvent ==
                (if f.kind == Ack && Regrants(c, s, draw) then Some(now + c.sifs) else s.channelGrantedEvent)
    ensures r.Ok? ==> r.value == s.(events := r.value.events, channelGrantedEvent := r.value.channelGrantedEvent)
  {
    if f.kind == Cts then Ok(s.(events := s.events + [CtsProcessed(f)]))
    else if f.kind == Ack then
      var s1 := s.(events := s.events + [AckProcessed(f)]);
      if Regrants(c, s, draw) then
        if s.channelGrantedEvent.Some? then Err(TimerAlreadyScheduled)
        else Ok(s1.(channelGrantedEvent := Some(now + c.sifs)))
      else Ok(s1)
    else Err(UnknownControlResponse)
  }

  /** Outside the forced-traffic mechanisms no ACK ever schedules a re-grant. */
  lemma StandardStationNeverRegrants(access: DcafConfig, p: DcfParams, address: MacAddress, cwMin: int, sifs: nat,
                                     s: Station, f: Frame, draw: real, now: Time)
    requires !IsForcedTrafficMechanism(p.mechanism) && 0.0 <= draw < 1.0
    ensures var r := RecipientProcessTransmittedControlResponseFrame(ConfigureDcf(access, p, address, cwMin, sifs), s, f, draw, now);
      r.Ok? <==> f.kind == Cts || f.kind == Ack
    ensures var r := RecipientProcessTransmittedControlResponseFrame(ConfigureDcf(access, p, address, cwMin, sifs), s, f, draw, now);
      r.Ok? ==> r.value.channelGrantedEvent == s.channelGrantedEvent
  {
  }

  /** transmissionComplete: within a sequence the handler is told, outside one the frame was a
      control response. */
  function TransmissionComplete(c: DcfConfig, s: Station, f: Frame, draw: real, now: Time): (r: Result<Station, DcfError>)
    requires 0.0 <= draw < 1.0
    ensures s.sequenceRunning ==> r == Ok(s.(events := s.events + [SequenceTransmissionComplete]))
    ensures !s.sequenceRunning ==> r == RecipientProcessTransmittedControlResponseFrame(c, s, f, draw, now)
    ensures !s.sequenceRunning && (f.kind == Cts || f.kind == Ack) && !(f.kind == Ack && Regrants(c, s, draw)) ==>
              r.Ok? && r.value.channelGrantedEvent == s.channelGrantedEvent
    ensures r.Err? ==> !s.sequenceRunning
  {
    if s.sequenceRunning then Ok(s.(events := s.events + [SequenceTransmissionComplete]))
    else RecipientProcessTransmittedControlResponseFrame(c, s, f, draw, now)
  }

  /** The re-grant event fires: the channel is granted without contention. */
  function ChannelGrantedEventFired(c: DcfConfig, s: Station): (r: Result<Station, DcfError>)
    requires s.channelGrantedEvent.Some?
    ensures r.Ok? <==> s.access.hasCallback
    ensures r.Ok? ==> r.value.channelGrantedEvent.None? && r.value.sequenceRunning
    ensures r.Ok? ==> r.value.access.contention == s.access.contention
    ensures r.Ok? ==>
              (r.value.access.owning <==> !s.sequenceRunning || HasFrameToTransmit(s.access.queue, s.access.inProgress))
    ensures r == AccessGranted(c, s.(channelGrantedEvent := None))
  {
    AccessGranted(c, s.(channelGrantedEvent := None))
  }

  /** scheduleStartRxTimer: scheduling it while it is pending is an error. */
  function ScheduleStartRxTimer(s: Station, now: Time, timeout: nat): (r: Result<Station, DcfError>)
    ensures r.Err? <==> s.startRxTimer.Some?
    ensures r.Ok? ==> r.value == s.(startRxTimer := Some(now + timeout))
  {
    if s.startRxTimer.Some? then Err(TimerAlreadyScheduled) else Ok(s.(startRxTimer := Some(now + timeout)))
  }

  /** The receive timer fires: no response started in time unless a reception is in progress. */
  function StartRxTimerFired(s: Station, receptionInProgress: bool): (r: Station)
    requires s.startRxTimer.Some?
    ensures r.startRxTimer.None?
    ensures r.events == s.events + (if receptionInProgress then [] else [StartRxTimeout])
    ensures r == s.(startRxTimer := None, events := r.events)
  {
    var s1 := s.(startRxTimer := None);
    if !receptionInProgress then s1.(events := s1.events + [StartRxTimeout]) else s1
  }

  /** The initial placeholder: enqueued, then the channel is requested. */
  function InitialFtNdfEnqueuingFired(c: DcfConfig, s: Station): (r: Station)
    requires s.initialFtNdfEnqueuing.Some?
    ensures r.initialFtNdfEnqueuing.None?
    ensures HasFrameToTransmit(r.access.queue, r.access.inProgress)
    ensures r.access.hasCallback
    ensures r.access.queue == s.access.queue + [Placeholder(c)]
    ensures s.access.owning ==> r.sequenceRunning
    ensures !s.access.owning ==> r.sequenceRunning == s.sequenceRunning && r.events == s.events
    ensures WindowsUntouched(s.access, r.access) && r.access.inProgress == s.access.inProgress
    ensures r.access.contention == Requested(c.access, s.access.(queue := r.access.queue)).contention
    ensures r == s.(access := r.access, sequenceRunning := r.sequenceRunning, initialFtNdfEnqueuing := None,
                    events := r.events)
  {
    var s1 := FtNdfEnqueued(c, s.(initialFtNdfEnqueuing := None));
    if HasFrameToTransmit(s1.access.queue, s1.access.inProgress) then RequestChannel(c, s1) else s1
  }
}
