/** The coordination function as an object: it owns a channel access function, updates the
    placeholder flag, the timers and the pending queue in place, and is proved to follow the
    transitions of module Coordination step by step. */
module CoordinationFunction {
  import opened Common
  import opened ChannelAccess
  import C = Coordination

  class Dcf {
    const config: C.DcfConfig
    const channelAccess: Dcaf
    var sequenceRunning: bool
    var startRxTimer: Option<Time>
    var endTransmissionTimer: Option<Time>
    var channelGrantedEvent: Option<Time>
    var initialFtNdfEnqueuing: Option<Time>
    var ndfWasSent: bool
    var ndfPacketCounter: nat
    var events: seq<C.Event>

    ghost function State(): C.Station
      reads this, channelAccess
    {
      C.Station(channelAccess.State(), sequenceRunning, startRxTimer, endTransmissionTimer, channelGrantedEvent,
                initialFtNdfEnqueuing, ndfWasSent, ndfPacketCounter, events)
    }

    ghost predicate Valid()
      reads this, channelAccess
    {
      channelAccess.Valid() && channelAccess.config == config.access
    }

    /** initialize: no sequence, no timer but the initial placeholder's, the flag cleared. */
    constructor (c: C.DcfConfig, access: Dcaf, now: Time)
      requires access.Valid() && access.config == c.access
      ensures config == c && channelAccess == access && Valid()
      ensures State() == C.InitialStation(c, access.State(), now)
    {
      config := c;
      channelAccess := access;
      sequenceRunning := false;
      startRxTimer := None;
      endTransmissionTimer := None;
      channelGrantedEvent := None;
      initialFtNdfEnqueuing := if c.mechanism == Cefi && !c.isFronthaulAffectedAp then Some(now) else None;
      ndfWasSent := false;
      ndfPacketCounter := 0;
      events := [];
    }

    method EnqueueFtNdfFrame()
      requires Valid()
      modifies this, channelAccess
      ensures Valid() && State() == C.FtNdfEnqueued(config, old(State()))
    {
      channelAccess.queue := channelAccess.queue + [C.Placeholder(config)];
    }

    /** releaseChannel, then the placeholder it asks for. */
    method Release()
      requires Valid()
      modifies this, channelAccess
      ensures Valid() && State() == C.Release(config, old(State()))
    {
      var enqueue := channelAccess.ReleaseChannel();
      if enqueue {
        EnqueueFtNdfFrame();
      }
    }

    method ChannelGranted()
      requires Valid()
      modifies this, channelAccess
      ensures Valid() && State() == C.ChannelGranted(config, old(State()))
    {
      if !sequenceRunning {
        sequenceRunning := true;
        events := events + [C.SequenceStarted];
      } else if !HasFrameToTransmit(channelAccess.queue, channelAccess.inProgressFrames) {
        Release();
      }
    }

    /** requestChannel, then channelGranted when the channel is already owned. */
    method RequestChannel()
      requires Valid()
      modifies this, channelAccess
      ensures Valid() && State() == C.RequestChannel(config, old(State()))
    {
      var grant := channelAccess.RequestChannel();
      if grant {
        ChannelGranted();
      }
    }

    /** channelAccessGranted, then channelGranted; ok is false where no callback is set. */
    method AccessGranted() returns (ok: bool)
      requires Valid()
      modifies this, channelAccess
      ensures Valid()
      ensures ok <==> C.AccessGranted(config, old(State())).Ok?
      ensures ok ==> State() == C.AccessGranted(config, old(State())).value
      ensures !ok ==> State() == old(State())
    {
      ok := channelAccess.ChannelAccessGranted();
      if ok {
        ChannelGranted();
      }
    }

    /** The contention countdown reached zero. */
    method ContentionEnded() returns (ok: bool)
      requires Valid() && channelAccess.contention.inProgress
      modifies this, channelAccess
      ensures Valid()
      ensures ok <==> C.ContentionEnded(config, old(State())).Ok?
      ensures ok ==> State() == C.ContentionEnded(config, old(State())).value
    {
      channelAccess.contention := channelAccess.contention.(inProgress := false);
      ok := AccessGranted();
    }

    method ProcessUpperFrame(f: Frame)
      requires Valid() && IsDataOrMgmt(f.kind)
      modifies this, channelAccess
      ensures Valid() && State() == C.ProcessUpperFrame(config, old(State()), f)
    {
      if IsFtNdfFrameEnqueued(channelAccess.queue) {
        channelAccess.queue := channelAccess.queue[1..];
        channelAccess.CancelContention();
      }
      channelAccess.queue := channelAccess.queue + [f];
      if channelAccess.queue != [] {
        RequestChannel();
      }
    }

    method FrameSequenceFinished()
      requires Valid()
      modifies this, channelAccess
      ensures Valid() && State() == C.FrameSequenceFinished(config, old(State()))
    {
      sequenceRunning := false;
      events := events + [C.SequenceFinished];
      Release();
      if HasFrameToTransmit(channelAccess.queue, channelAccess.inProgressFrames) {
        RequestChannel();
      }
    }

    /** txTransmitFrame; airtime is the frame's duration at the selected mode. */
    method TxTransmitFrame(f: Frame, ifs: Time, airtime: nat, now: Time)
      requires Valid()
      modifies this
      ensures Valid() && State() == C.TxTransmitFrame(old(State()), f, ifs, airtime, now)
    {
      if endTransmissionTimer.None? {
        endTransmissionTimer := Some(now + ifs + airtime);
        if f.kind == NullData {
          ndfPacketCounter := ndfPacketCounter + 1;
        }
        events := events + [C.Transmitted(f, ifs)];
      }
    }

    /** transmitFrame; duration is the computed duration field before padding. */
    method TransmitFrame(f: Frame, ifs: Time, duration: nat, airtime: nat, now: Time)
      requires Valid()
      modifies this, channelAccess
      ensures Valid() && State() == C.TransmitFrame(config, old(State()), f, ifs, duration, airtime, now)
    {
      if f.kind == NullData {
        channelAccess.IncrementCwOffset();
        ndfWasSent := true;
      } else {
        ndfWasSent := false;
      }
      var padded := duration;
      if f.kind == Rts && padded != 0 {
        padded := padded + 4 * config.navExtension;
      } else if padded != 0 {
        padded := padded + 2 * config.navExtension;
      }
      TxTransmitFrame(f.(durationField := padded), ifs, airtime, now);
    }

    method EndTransmissionTimerFired()
      requires Valid() && endTransmissionTimer.Some?
      modifies this
      ensures Valid() && State() == C.EndTransmissionTimerFired(old(State()))
    {
      endTransmissionTimer := None;
      events := events + [C.RadioTransmissionFinished];
    }

    /** Case (a) of the offset table. */
    method UplinkSeen()
      requires Valid()
      modifies this, channelAccess
      ensures Valid() && State() == C.UplinkSeen(config, old(State()))
    {
      var currentCwOffset := channelAccess.cwOffset;
      channelAccess.CancelContention();
      RequestChannel();
      if currentCwOffset == 0 {
        channelAccess.ResetCwOffset();
      }
    }

    /** Case (b) of the offset table. */
    method DownlinkSeen(backoffSlots: int)
      requires Valid()
      modifies this, channelAccess
      ensures Valid() && State() == C.DownlinkSeen(config, old(State()), backoffSlots)
    {
      if ndfWasSent {
        channelAccess.NullCwOffset();
        channelAccess.CancelContention();
        RequestChannel();
      } else if channelAccess.cwOffset > config.modeSetCwMin {
        channelAccess.ResetCwOffset();
        if backoffSlots > channelAccess.cwOffset + channelAccess.cw {
          channelAccess.CancelContention();
          RequestChannel();
        }
      }
    }

    /** processLowerFrame; backoffSlots is what the countdown reports when asked. */
    method ProcessLowerFrame(f: Frame, backoffSlots: int)
      requires Valid()
      modifies this, channelAccess
      ensures Valid() && State() == C.ProcessLowerFrame(config, old(State()), f, backoffSlots)
    {
      var dataOrMgmt := IsDataOrMgmt(f.kind);
      var apIsReceiver := f.receiver == config.apAddress;
      if IsFtNdfFrameEnqueued(channelAccess.queue) && apIsReceiver && f.kind != NullData && dataOrMgmt {
        UplinkSeen();
      } else if IsFtNdfFrameEnqueued(channelAccess.queue) && dataOrMgmt && f.transmitter == config.apAddress {
        DownlinkSeen(backoffSlots);
      }
      if dataOrMgmt {
        ndfWasSent := false;
      }
      assert State() == C.LowerFrameChannelAccess(config, old(State()), f, backoffSlots);

      var forUs := C.IsForUs(config, f);
      if sequenceRunning {
        if (!forUs && startRxTimer.None?) || forUs {
          events := events + [C.ResponseProcessed(f)];
        } else {
          events := events + [C.Dropped(f, NotAddressedToUs)];
        }
        startRxTimer := None;
      } else if forUs {
        events := events + [C.ReceivedAsRecipient(f)];
      } else {
        events := events + [C.Dropped(f, NotAddressedToUs)];
      }
    }

    method CorruptedFrameReceived()
      requires Valid()
      modifies this
      ensures Valid() && State() == C.CorruptedFrameReceived(old(State()))
    {
      ndfWasSent := false;
      if sequenceRunning && startRxTimer.None? {
        events := events + [C.StartRxTimeout];
      }
    }

    /** originatorProcessFailedFrame for the i-th in-progress frame. */
    method OriginatorProcessFailedFrame(i: nat, retryLimitReached: bool)
      requires Valid() && i < |channelAccess.inProgressFrames| && IsDataOrMgmt(channelAccess.inProgressFrames[i].kind)
      modifies this, channelAccess
      ensures Valid() && State() == C.OriginatorProcessFailedFrame(old(State()), i, retryLimitReached)
    {
      var failed := channelAccess.inProgressFrames[i];
      events := events + [C.RecoveryFrameFailed(failed), C.AckHandlerFrameFailed(failed)];
      if retryLimitReached {
        events := events + [C.RecoveryRetryLimitReached(failed)];
        channelAccess.inProgressFrames := channelAccess.inProgressFrames[..i] + channelAccess.inProgressFrames[i + 1..];
        events := events + [C.AckHandlerFrameDropped(failed), C.Dropped(failed, RetryLimitReached), C.LinkBroken(failed)];
      } else {
        channelAccess.inProgressFrames := channelAccess.inProgressFrames[i := failed.(retry := true)];
      }
    }

    /** recipientProcessTransmittedControlResponseFrame; ok is false where the source raises a
        runtime error, and the state is then left as it was. */
    method RecipientProcessTransmittedControlResponseFrame(f: Frame, draw: real, now: Time) returns (ok: bool)
      requires Valid() && 0.0 <= draw < 1.0
      modifies this
      ensures Valid()
      ensures ok <==> C.RecipientProcessTransmittedControlResponseFrame(config, old(State()), f, draw, now).Ok?
      ensures ok ==> State() == C.RecipientProcessTransmittedControlResponseFrame(config, old(State()), f, draw, now).value
      ensures !ok ==> State() == old(State())
    {
      if f.kind == Cts {
        events := events + [C.CtsProcessed(f)];
        ok := true;
      } else if f.kind == Ack {
        var triggerTransmission := draw < config.alpha;
        var queueIsEmpty := channelAccess.queue == [];
        var hasInProgressFrames := channelAccess.inProgressFrames != [];
        if config.isFronthaulAffectedAp && (!queueIsEmpty || hasInProgressFrames) && triggerTransmission {
          if channelGrantedEvent.Some? {
            ok := false;
            return;
          }
          channelGrantedEvent := Some(now + config.sifs);
        }
        events := events + [C.AckProcessed(f)];
        ok := true;
      } else {
        ok := false;
      }
    }

    method TransmissionComplete(f: Frame, draw: real, now: Time) returns (ok: bool)
      requires Valid() && 0.0 <= draw < 1.0
      modifies this
      ensures Valid()
      ensures ok <==> C.TransmissionComplete(config, old(State()), f, draw, now).Ok?
      ensures ok ==> State() == C.TransmissionComplete(config, old(State()), f, draw, now).value
    {
      if sequenceRunning {
        events := events + [C.SequenceTransmissionComplete];
        ok := true;
      } else {
        ok := RecipientProcessTransmittedControlResponseFrame(f, draw, now);
      }
    }

    method ScheduleStartRxTimer(now: Time, timeout: nat) returns (ok: bool)
      requires Valid()
      modifies this
      ensures Valid()
      ensures ok <==> C.ScheduleStartRxTimer(old(State()), now, timeout).Ok?
      ensures ok ==> State() == C.ScheduleStartRxTimer(old(State()), now, timeout).value
      ensures !ok ==> State() == old(State())
    {
      if startRxTimer.Some? {
        ok := false;
      } else {
        startRxTimer := Some(now + timeout);
        ok := true;
      }
    }

    /** The receive timer fires; receptionInProgress is what the medium tracker reports. */
    method StartRxTimerFired(receptionInProgress: bool)
      requires Valid() && startRxTimer.Some?
      modifies this
      ensures Valid() && State() == C.StartRxTimerFired(old(State()), receptionInProgress)
    {
      startRxTimer := None;
      if !receptionInProgress {
        events := events + [C.StartRxTimeout];
      }
    }

    method ChannelGrantedEventFired() returns (ok: bool)
      requires Valid() && channelGrantedEvent.Some?
      modifies this, channelAccess
      ensures Valid()
      ensures ok <==> C.ChannelGrantedEventFired(config, old(State())).Ok?
      ensures ok ==> State() == C.ChannelGrantedEventFired(config, old(State())).value
    {
      channelGrantedEvent := None;
      ok := AccessGranted();
    }

    method InitialFtNdfEnqueuingFired()
      requires Valid() && initialFtNdfEnqueuing.Some?
      modifies this, channelAccess
      ensures Valid() && State() == C.InitialFtNdfEnqueuingFired(config, old(State()))
    {
      initialFtNdfEnqueuing := None;
      EnqueueFtNdfFrame();
      if HasFrameToTransmit(channelAccess.queue, channelAccess.inProgressFrames) {
        RequestChannel();
      }
    }
  }
}
