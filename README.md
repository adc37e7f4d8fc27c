# IEEE 802.11 DCF station with forced-traffic channel access — a Dafny model

This project models the core of an INET 4.5 IEEE 802.11 MAC station. It covers the
Distributed Coordination Function (IEEE Std 802.11-2012, section 9.3) and its
extension for fronthaul-affected access points.

In the cefi ("forced traffic") scheme, a station associated with a fronthaul-affected
access point always keeps a frame pending: a null-data placeholder addressed to
the access point (the "FT NDF"). As a result, it always contends for the medium.
The access point itself only answers, and after an ACK it may re-grant itself the
channel with probability `alpha`. The scheme also pads every duration field with a
configurable NAV extension. It keeps a separate contention-window ladder (`cwOffset`),
which grows with each placeholder the station sends and is reset or nulled when uplink
or downlink traffic is overheard.

The model has three parts:

* `ChannelAccess` (dcaf.dfy) is the channel-access function. It owns the two contention
  windows (`cw`, `cwOffset`), the pending queue and the in-progress frames, and decides
  on each channel request what to do. Options are:
  * grant at once;
  * abstain (the access point);
  * start an extended contention for the placeholder;
  * start an ordinary contention.

  `Dcaf` is a class whose methods are proved against pure transition functions on
  `DcafState`.
* `MediumTracker` (rx.dfy) is the receive process. It does these things:
  * tracks the NAV deadline and whether the medium is free;
  * tells every registered contention about each change, either at once or after the
    fronthaul delay;
  * checks the FCS of received frames.

  `Rx` is a class proved against pure transitions on `RxState`. The loops that notify
  the contentions are `while` loops with invariants.
* `Coordination` (coordination.dfy) holds the coordinator's transitions as pure
  functions on `Station`. `CoordinationFunction` (dcf.dfy) holds the `Dcf` class, which
  owns a `Dcaf` and applies those transitions in place. `Common` (common.dfy) holds the
  frame, address and queue vocabulary shared by all three.

Timers are fields holding `Option<Time>` deadlines. Calls into code outside the core are
recorded as events in a log: the frame-sequence handler, the transmitter, the recipient
data service, the contention's start and cancel calls, and the notices sent to
contentions. The properties proved are the ones the scheme relies on:

* the ladders of both contention windows;
* a cefi station never running out of frames to send;
* the NAV being the latest requested deadline;
* every contention being told only of real changes of the medium, alternately free and
  busy;
* transmissions never outrunning the end-of-transmission timer;
* duration padding vanishing outside the forced-traffic mechanisms;
* the routing of received frames, with its conditions in both directions.

Two details of the code that the model keeps:

* `processUpperFrame` requests the channel after every enqueued frame (Dcf.cc:246-249).
* `isFronthaulAffectedAp` is forced to false outside cefi and okamoto (Dcaf.cc:48-55).

## Model

| member | source | states |
|---|---|---|
| ChannelAccess.CalculateTimingParameters | inet4.5/src/inet/linklayer/ieee80211/mac/channelaccess/Dcaf.cc:100-126 | timing exists iff ifs > sifs (the ASSERT); ifs defaults to DIFS = sifs + 2·slot, otherwise difsn·slot; eifs = sifs + ifs + ACK transmission time; cwMin/cwMax from the parameters or the mode set |
| ChannelAccess.Configure | inet4.5/src/inet/linklayer/ieee80211/mac/channelaccess/Dcaf.cc:45-55 | a channel access can only be a fronthaul-affected AP under cefi or okamoto |
| ChannelAccess.NextCw | inet4.5/src/inet/linklayer/ieee80211/mac/channelaccess/Dcaf.cc:159-168 | the window becomes 2·cw+1, capped at cwMax |
| ChannelAccess.NextCwOffset | inet4.5/src/inet/linklayer/ieee80211/mac/channelaccess/Dcaf.cc:129-143 | a nulled offset restarts at cwMin; otherwise it doubles like cw; an offset in its window stays in [cwMin, cwMax] |
| ChannelAccess.CwLadder | inet4.5/src/inet/linklayer/ieee80211/mac/channelaccess/Dcaf.cc:159-168 | k increments from cwMin give min(cwMax, 2^k·(cwMin+1) − 1) |
| ChannelAccess.CwAfterIncrementsInWindow | inet4.5/src/inet/linklayer/ieee80211/mac/channelaccess/Dcaf.cc:159-168 | any number of increments from cwMin stays within [cwMin, cwMax] |
| ChannelAccess.NulledOffsetLadder | inet4.5/src/inet/linklayer/ieee80211/mac/channelaccess/Dcaf.cc:129-153 | after nullCwOffset, k+1 offset increments follow the same ladder as k increments of cw from cwMin |
| ChannelAccess.CancelIfRunning | inet4.5/src/inet/linklayer/ieee80211/mac/channelaccess/Dcaf.cc:73-82 | afterwards no contention runs; a running one gets exactly one cancel call; an idle one is untouched |
| ChannelAccess.Initial | inet4.5/src/inet/linklayer/ieee80211/mac/channelaccess/Dcaf.cc:100-126 | both windows start at cwMin and satisfy the window invariant |
| ChannelAccess.OffsetIncremented | inet4.5/src/inet/linklayer/ieee80211/mac/channelaccess/Dcaf.cc:129-143 | incrementing the offset preserves the window invariant |
| ChannelAccess.OffsetReset | inet4.5/src/inet/linklayer/ieee80211/mac/channelaccess/Dcaf.cc:145-148 | resetting the offset preserves the window invariant |
| ChannelAccess.OffsetNulled | inet4.5/src/inet/linklayer/ieee80211/mac/channelaccess/Dcaf.cc:150-153 | nulling the offset preserves the window invariant |
| ChannelAccess.RequestDecision | inet4.5/src/inet/linklayer/ieee80211/mac/channelaccess/Dcaf.cc:202-238 | grant iff owning; abstain iff not owning and an AP; extended contention iff a non-AP cefi station with a placeholder at the head, whether or not a countdown runs; otherwise an ordinary contention iff none runs |
| ChannelAccess.Requested | inet4.5/src/inet/linklayer/ieee80211/mac/channelaccess/Dcaf.cc:202-238 | only the callback and the contention change; an extended contention starts with cw + cwOffset, an ordinary one with cw; no new start otherwise |
| ChannelAccess.Dcaf.constructor | inet4.5/src/inet/linklayer/ieee80211/mac/channelaccess/Dcaf.cc:22-59 | the state is the initial one computed from the mode set |
| ChannelAccess.Dcaf.ModeSetChanged | inet4.5/src/inet/linklayer/ieee80211/mac/channelaccess/Dcaf.cc:245-253 | recomputes the timing; fails and leaves the state as it was when ifs ≤ sifs |
| ChannelAccess.Dcaf.CancelContention | inet4.5/src/inet/linklayer/ieee80211/mac/channelaccess/Dcaf.cc:73-82 | the new state is the cancelled one |
| ChannelAccess.Dcaf.IncrementCw | inet4.5/src/inet/linklayer/ieee80211/mac/channelaccess/Dcaf.cc:159-168 | only cw changes, to NextCw |
| ChannelAccess.Dcaf.ResetCw | inet4.5/src/inet/linklayer/ieee80211/mac/channelaccess/Dcaf.cc:170-175 | only cw changes, back to cwMin |
| ChannelAccess.Dcaf.IncrementCwOffset | inet4.5/src/inet/linklayer/ieee80211/mac/channelaccess/Dcaf.cc:129-143 | only cwOffset changes, to NextCwOffset |
| ChannelAccess.Dcaf.ResetCwOffset | inet4.5/src/inet/linklayer/ieee80211/mac/channelaccess/Dcaf.cc:145-148 | only cwOffset changes, back to cwMin |
| ChannelAccess.Dcaf.NullCwOffset | inet4.5/src/inet/linklayer/ieee80211/mac/channelaccess/Dcaf.cc:150-153 | only cwOffset changes, to 0 |
| ChannelAccess.Dcaf.ChannelAccessGranted | inet4.5/src/inet/linklayer/ieee80211/mac/channelaccess/Dcaf.cc:177-184 | succeeds iff a callback is registered; then owning is set and the ownership signal emitted; otherwise nothing changes |
| ChannelAccess.Dcaf.ReleaseChannel | inet4.5/src/inet/linklayer/ieee80211/mac/channelaccess/Dcaf.cc:186-200 | drops ownership and the callback; asks for a placeholder exactly when a non-AP cefi station has an empty queue and nothing in progress |
| ChannelAccess.Dcaf.RequestChannel | inet4.5/src/inet/linklayer/ieee80211/mac/channelaccess/Dcaf.cc:202-238 | grants at once iff already owning; the new state is Requested |
| MediumTracker.IsFcsOk | inet4.5/src/inet/linklayer/ieee80211/mac/Rx.cc:118-142 | bit errors or incorrect data fail; an unknown FCS mode is an error; declared-correct passes; computed FCS passes iff it matches |
| MediumTracker.ExtendedNav | inet4.5/src/inet/linklayer/ieee80211/mac/Rx.cc:218-238 | a zero interval leaves the NAV alone; otherwise the NAV only moves later and is at least now + interval |
| MediumTracker.NavIsLatestDeadline | inet4.5/src/inet/linklayer/ieee80211/mac/Rx.cc:218-238 | after any sequence of NAV requests the NAV is the latest of the old deadline and every requested deadline |
| MediumTracker.Recomputed | inet4.5/src/inet/linklayer/ieee80211/mac/Rx.cc:144-164 | only a real change of the medium state notifies; with no fronthaul delay every contention is told at once, otherwise a deferred notice is scheduled at now + delay; the state stays consistent |
| MediumTracker.NavSet | inet4.5/src/inet/linklayer/ieee80211/mac/Rx.cc:218-238 | the NAV becomes ExtendedNav; when it moves the NAV timer is re-armed and the signalled interval recorded; nothing else changes otherwise |
| MediumTracker.NavExpired | inet4.5/src/inet/linklayer/ieee80211/mac/Rx.cc:57-61 | the NAV is cleared and the medium state recomputed |
| MediumTracker.DeferredFired | inet4.5/src/inet/linklayer/ieee80211/mac/Rx.cc:63-72 | the first deferred notice sets the MAC-side medium state and is broadcast to every contention |
| MediumTracker.LowerFrameOutcome | inet4.5/src/inet/linklayer/ieee80211/mac/Rx.cc:79-102 | the result is the FCS verdict; a bad FCS drops the frame and tells every contention; a good frame for someone else is exactly a NAV update (NavSet), extending the NAV by its duration field; one for us changes nothing |
| MediumTracker.StepFlipsOrIsSilent | inet4.5/src/inet/linklayer/ieee80211/mac/Rx.cc:144-238 | with no fronthaul delay and one contention, each medium event either notifies nothing or notifies exactly the flipped state |
| MediumTracker.RunNotifiesOnlyFlips | inet4.5/src/inet/linklayer/ieee80211/mac/Rx.cc:144-238 | over any run of timed medium events the contention is told free/busy strictly alternately, starting from the opposite of the state it had |
| MediumTracker.Rx.constructor | inet4.5/src/inet/linklayer/ieee80211/mac/Rx.cc:25-27 | undefined radio states, no NAV, no contentions, no notices |
| MediumTracker.Rx.Initialize | inet4.5/src/inet/linklayer/ieee80211/mac/Rx.cc:34-53 | the medium state is recomputed and the state becomes consistent |
| MediumTracker.Rx.RegisterContention | inet4.5/src/inet/linklayer/ieee80211/mac/Rx.cc:273-277 | the contention is appended to the listeners |
| MediumTracker.Rx.IsReceptionInProgress | inet4.5/src/inet/linklayer/ieee80211/mac/Rx.cc:112-116 | true iff receiving and the part is the whole signal or its data |
| MediumTracker.Rx.NotifyContentionOfMediumChange | inet4.5/src/inet/linklayer/ieee80211/mac/Rx.cc:175-180 | every contention, in registration order, gets the new medium state |
| MediumTracker.Rx.StartMediumFreeTimer | inet4.5/src/inet/linklayer/ieee80211/mac/Rx.cc:184-193 | a notice is deferred to now + fronthaul delay |
| MediumTracker.Rx.RecomputeMediumFree | inet4.5/src/inet/linklayer/ieee80211/mac/Rx.cc:144-164 | the new state is Recomputed |
| MediumTracker.Rx.ReceptionStateChanged | inet4.5/src/inet/linklayer/ieee80211/mac/Rx.cc:197-202 | stores the reception state and recomputes |
| MediumTracker.Rx.ReceivedSignalPartChanged | inet4.5/src/inet/linklayer/ieee80211/mac/Rx.cc:204-209 | stores the signal part and recomputes |
| MediumTracker.Rx.TransmissionStateChanged | inet4.5/src/inet/linklayer/ieee80211/mac/Rx.cc:211-216 | stores the transmission state and recomputes |
| MediumTracker.Rx.SetOrExtendNav | inet4.5/src/inet/linklayer/ieee80211/mac/Rx.cc:218-238 | the new state is NavSet |
| MediumTracker.Rx.FrameTransmitted | inet4.5/src/inet/linklayer/ieee80211/mac/Rx.cc:104-110 | our own transmission sets the NAV from its duration field |
| MediumTracker.Rx.NavTimerExpired | inet4.5/src/inet/linklayer/ieee80211/mac/Rx.cc:57-61 | the new state is NavExpired |
| MediumTracker.Rx.DeferredNotificationFired | inet4.5/src/inet/linklayer/ieee80211/mac/Rx.cc:63-72 | the new state is DeferredFired |
| MediumTracker.Rx.NotifyCorruptedFrame | inet4.5/src/inet/linklayer/ieee80211/mac/Rx.cc:99-100 | every contention, in order, is told of the corrupted frame |
| MediumTracker.Rx.LowerFrameReceived | inet4.5/src/inet/linklayer/ieee80211/mac/Rx.cc:79-102 | result and new state are LowerFrameOutcome |
| Coordination.ConfigureDcf | inet4.5/src/inet/linklayer/ieee80211/mac/coordinationfunction/Dcf.cc:66-88 | under cefi/okamoto the NAV extension, AP flag, alpha and AP address come from the parameters; otherwise they are 0, false, 1 and unspecified |
| Common.IsFtNdfFrameEnqueued | inet4.5/src/inet/linklayer/ieee80211/mac/coordinationfunction/Dcf.cc:104-115 | true iff the queue is non-empty and its head is a null-data frame; then there is a frame to transmit |
| Common.HasFrameToTransmit | inet4.5/src/inet/linklayer/ieee80211/mac/coordinationfunction/Dcf.cc:532-535 | true iff the pending queue and the in-progress store together hold at least one frame |
| Coordination.InitialStation | inet4.5/src/inet/linklayer/ieee80211/mac/coordinationfunction/Dcf.cc:84-96 | no sequence, no timers, ndfWasSent false, placeholder counter 0, empty log; the initial placeholder timer is armed iff a cefi non-AP station |
| Coordination.FtNdfEnqueued | inet4.5/src/inet/linklayer/ieee80211/mac/coordinationfunction/Dcf.cc:104-131 | exactly one placeholder is appended; the queue holds a placeholder at its head afterwards iff it did before or was empty |
| Coordination.Release | inet4.5/src/inet/linklayer/ieee80211/mac/channelaccess/Dcaf.cc:186-200 | ownership and callback are dropped; a placeholder is enqueued exactly when wanted; a cefi station always has a frame to transmit afterwards |
| Coordination.ChannelGranted | inet4.5/src/inet/linklayer/ieee80211/mac/coordinationfunction/Dcf.cc:209-224 | a sequence runs afterwards; a second sequence is never started; when a sequence already runs and there is nothing to transmit, the channel is released; when one runs and there is a frame to transmit, nothing changes |
| Coordination.RequestChannel | inet4.5/src/inet/linklayer/ieee80211/mac/channelaccess/Dcaf.cc:202-238 | windows untouched; an owner is granted at once; a non-owner only records the request and its contention |
| Coordination.AccessGranted | inet4.5/src/inet/linklayer/ieee80211/mac/channelaccess/Dcaf.cc:177-184 | fails iff no callback is registered; otherwise the channel is granted, a sequence runs, and one is started iff none ran; the contention, the windows, the in-progress frames, the timers and the placeholder flag and counter are untouched, and the queue changes only by the placeholder of a release |
| Coordination.ContentionEnded | inet4.5/src/inet/linklayer/ieee80211/mac/channelaccess/Dcaf.cc:177-184 | fails iff no callback is registered; otherwise the countdown has stopped with no call made on it, the channel is owned unless a running sequence has nothing to send, a sequence runs, and one is started iff none ran; the windows, the in-progress frames, the timers and the placeholder flag and counter are untouched, and the queue changes only by the placeholder of a release |
| Coordination.ProcessUpperFrame | inet4.5/src/inet/linklayer/ieee80211/mac/coordinationfunction/Dcf.cc:226-250 | a placeholder at the head is removed and the frame appended; its countdown is cancelled and restarted (one cancel if it ran, then one start for the new queue), and a station that owns the channel or is the AP keeps the cancelled countdown; without a placeholder the channel is requested on the queue with the frame appended; only the channel access, the sequence flag and the log change; an owner starts (or keeps) a sequence, a non-owner keeps its flag and log |
| Coordination.UpperFrameRestartsOrdinaryContention | inet4.5/src/inet/linklayer/ieee80211/mac/coordinationfunction/Dcf.cc:226-250 | a real frame replacing the placeholder starts an ordinary contention with cw |
| Coordination.FrameSequenceFinished | inet4.5/src/inet/linklayer/ieee80211/mac/coordinationfunction/Dcf.cc:460-468 | the sequence ends with exactly one SequenceFinished event and the channel is released; the channel is requested again, with the contention Requested gives for the released state, iff there is a frame to transmit; the windows, the in-progress frames, the timers and the placeholder flag and counter are untouched |
| Coordination.ForcedTrafficKeepsContending | inet4.5/src/inet/linklayer/ieee80211/mac/coordinationfunction/Dcf.cc:460-468 | a cefi station always has a frame and a pending request once a sequence finishes |
| Coordination.TxTransmitFrame | inet4.5/src/inet/linklayer/ieee80211/mac/coordinationfunction/Dcf.cc:138-152 | while the end-of-transmission timer runs nothing happens; otherwise the frame is handed to the transmitter and the timer armed for its airtime |
| Coordination.EndTransmissionTimerFired | inet4.5/src/inet/linklayer/ieee80211/mac/coordinationfunction/Dcf.cc:171-175 | the timer is cleared and the radio told the transmission finished |
| Coordination.TransmissionsFollowTimerFirings | inet4.5/src/inet/linklayer/ieee80211/mac/coordinationfunction/Dcf.cc:138-175 | over any run the number of transmissions never exceeds the timer firings plus whether the timer was armed |
| Coordination.PaddedDuration | inet4.5/src/inet/linklayer/ieee80211/mac/coordinationfunction/Dcf.cc:429-442 | zero stays zero; RTS gets 4 NAV extensions, other frames 2 |
| Coordination.StandardDurationsUnpadded | inet4.5/src/inet/linklayer/ieee80211/mac/coordinationfunction/Dcf.cc:84-88 | outside the forced-traffic mechanisms the duration field is unchanged |
| Coordination.TransmitFrame | inet4.5/src/inet/linklayer/ieee80211/mac/coordinationfunction/Dcf.cc:401-452 | a null-data frame sets ndfWasSent and increments cwOffset, any other frame clears it; with the transmitter free the padded frame is logged, the end-of-transmission timer armed for now + ifs + airtime and a placeholder counted; with it busy the timer, counter and log are unchanged; nothing else changes; the window invariant is kept |
| Coordination.IsSentByUs | inet4.5/src/inet/linklayer/ieee80211/mac/coordinationfunction/Dcf.cc:645-654 | only data/management frames can be ours; such a frame is ours iff its address3 is our address |
| Coordination.IsForUs | inet4.5/src/inet/linklayer/ieee80211/mac/coordinationfunction/Dcf.cc:640-643 | frames to our address are for us; frames for us are ours or multicast; a multicast frame not to our address is for us iff it is not a data/management frame whose address3 is ours (our own echo) |
| Coordination.UplinkSeen | inet4.5/src/inet/linklayer/ieee80211/mac/coordinationfunction/Dcf.cc:327-340 | the offset is reset to cwMin if nulled; the countdown is cancelled and restarted with the offset it had (one cancel if it ran, then one start, extended for a cefi placeholder); an owner or AP keeps the cancelled countdown and an owner runs a sequence; the window invariant is kept |
| Coordination.DownlinkSeen | inet4.5/src/inet/linklayer/ieee80211/mac/coordinationfunction/Dcf.cc:341-365 | the offset is nulled after our placeholder, else reset when above the mode set's cwMin; only when the case demands it the countdown is cancelled and restarted with the new offset, otherwise nothing else changes; the window invariant is kept |
| Coordination.LowerFrameChannelAccess | inet4.5/src/inet/linklayer/ieee80211/mac/coordinationfunction/Dcf.cc:313-369 | the offset follows the reference table; a data frame clears ndfWasSent; without a placeholder queued only ndfWasSent changes; a restarting frame cancels and restarts the countdown (with the old offset for uplink, the new one for downlink); timers untouched |
| Coordination.UplinkRestartKeepsNulledOffset | inet4.5/src/inet/linklayer/ieee80211/mac/coordinationfunction/Dcf.cc:327-340 | an uplink frame seen with a nulled offset restarts the placeholder contention with cw + 0 before the offset is reset |
| Coordination.DownlinkAfterPlaceholderRestartsLadder | inet4.5/src/inet/linklayer/ieee80211/mac/coordinationfunction/Dcf.cc:341-365 | downlink traffic after our placeholder resets the offset to cwMin |
| Coordination.Route | inet4.5/src/inet/linklayer/ieee80211/mac/coordinationfunction/Dcf.cc:373-398 | exactly one event is logged: a response iff a sequence runs; recipient processing iff idle and for us; a not-addressed drop iff idle and not for us |
| Coordination.ProcessLowerFrame | inet4.5/src/inet/linklayer/ieee80211/mac/coordinationfunction/Dcf.cc:313-399 | the offset follows the decision table; a data/management frame clears ndfWasSent, any other keeps it; the end-of-transmission timer is untouched; the receive timer is cancelled iff a sequence runs afterwards; a non-owner keeps its sequence flag and logs exactly one event: recipient processing iff idle and for us, a response iff a sequence runs and the frame is for us or none is awaited; the window invariant is kept |
| Coordination.CorruptedFrameReceived | inet4.5/src/inet/linklayer/ieee80211/mac/coordinationfunction/Dcf.cc:656-671 | ndfWasSent cleared; a start-rx timeout is reported only while a sequence runs without the rx timer |
| Coordination.RemoveAt | inet4.5/src/inet/linklayer/ieee80211/mac/coordinationfunction/Dcf.cc:607-638 | the removed frame leaves the multiset; the others keep their order |
| Coordination.OriginatorProcessFailedFrame | inet4.5/src/inet/linklayer/ieee80211/mac/coordinationfunction/Dcf.cc:607-638 | the recovery procedure and the ACK handler are told of the failure; at the retry limit the recovery procedure is told so, the frame leaves the in-progress frames, the ACK handler drops it, and one retry-limit drop and one link-broken event follow; otherwise it stays and is marked for retry; nothing else changes |
| Coordination.RecipientProcessTransmittedControlResponseFrame | inet4.5/src/inet/linklayer/ieee80211/mac/coordinationfunction/Dcf.cc:279-304 | an unknown response is an error; an AP's ACK re-grants the channel after SIFS with probability alpha, failing iff that timer is already set |
| Coordination.StandardStationNeverRegrants | inet4.5/src/inet/linklayer/ieee80211/mac/coordinationfunction/Dcf.cc:279-304 | outside the forced-traffic mechanisms no re-grant timer is ever scheduled |
| Coordination.TransmissionComplete | inet4.5/src/inet/linklayer/ieee80211/mac/coordinationfunction/Dcf.cc:521-530 | a running sequence is told; otherwise the result is exactly that of recipientProcessTransmittedControlResponseFrame, so the CTS/ACK is recorded and a re-grant scheduled when the rule applies |
| Coordination.ChannelGrantedEventFired | inet4.5/src/inet/linklayer/ieee80211/mac/coordinationfunction/Dcf.cc:177-180 | the event is cleared and the outcome is exactly AccessGranted's: fails iff no callback is pending, otherwise the channel is owned unless a running sequence has nothing to send, a sequence runs, and the contention is untouched |
| Coordination.ScheduleStartRxTimer | inet4.5/src/inet/linklayer/ieee80211/mac/coordinationfunction/Dcf.cc:306-311 | fails iff the timer is already armed; otherwise it fires at now + timeout |
| Coordination.StartRxTimerFired | inet4.5/src/inet/linklayer/ieee80211/mac/coordinationfunction/Dcf.cc:164-169 | the timer is cleared; a timeout is reported iff no reception is in progress |
| Coordination.InitialFtNdfEnqueuingFired | inet4.5/src/inet/linklayer/ieee80211/mac/coordinationfunction/Dcf.cc:182-187 | exactly one placeholder is appended to the queue and the channel requested with the contention Requested gives for that queue, so there is always a frame to transmit; an owner runs a sequence, a non-owner keeps its sequence flag and events; the windows, the in-progress frames and the other timers are untouched |
| CoordinationFunction.Dcf.constructor | inet4.5/src/inet/linklayer/ieee80211/mac/coordinationfunction/Dcf.cc:23-99 | the state is InitialStation |
| CoordinationFunction.Dcf.EnqueueFtNdfFrame | inet4.5/src/inet/linklayer/ieee80211/mac/coordinationfunction/Dcf.cc:120-131 | the new state is FtNdfEnqueued |
| CoordinationFunction.Dcf.Release | inet4.5/src/inet/linklayer/ieee80211/mac/channelaccess/Dcaf.cc:186-200 | the new state is Release |
| CoordinationFunction.Dcf.ChannelGranted | inet4.5/src/inet/linklayer/ieee80211/mac/coordinationfunction/Dcf.cc:209-224 | the new state is ChannelGranted |
| CoordinationFunction.Dcf.RequestChannel | inet4.5/src/inet/linklayer/ieee80211/mac/channelaccess/Dcaf.cc:202-238 | the new state is RequestChannel |
| CoordinationFunction.Dcf.AccessGranted | inet4.5/src/inet/linklayer/ieee80211/mac/channelaccess/Dcaf.cc:177-184 | succeeds iff AccessGranted does; the state is unchanged on failure |
| CoordinationFunction.Dcf.ContentionEnded | inet4.5/src/inet/linklayer/ieee80211/mac/channelaccess/Dcaf.cc:177-184 | succeeds iff ContentionEnded does, with its state |
| CoordinationFunction.Dcf.ProcessUpperFrame | inet4.5/src/inet/linklayer/ieee80211/mac/coordinationfunction/Dcf.cc:226-250 | the new state is ProcessUpperFrame |
| CoordinationFunction.Dcf.FrameSequenceFinished | inet4.5/src/inet/linklayer/ieee80211/mac/coordinationfunction/Dcf.cc:460-468 | the new state is FrameSequenceFinished |
| CoordinationFunction.Dcf.TxTransmitFrame | inet4.5/src/inet/linklayer/ieee80211/mac/coordinationfunction/Dcf.cc:138-152 | the new state is TxTransmitFrame |
| CoordinationFunction.Dcf.TransmitFrame | inet4.5/src/inet/linklayer/ieee80211/mac/coordinationfunction/Dcf.cc:401-452 | the new state is TransmitFrame |
| CoordinationFunction.Dcf.EndTransmissionTimerFired | inet4.5/src/inet/linklayer/ieee80211/mac/coordinationfunction/Dcf.cc:171-175 | the new state is EndTransmissionTimerFired |
| CoordinationFunction.Dcf.UplinkSeen | inet4.5/src/inet/linklayer/ieee80211/mac/coordinationfunction/Dcf.cc:327-340 | the new state is UplinkSeen |
| CoordinationFunction.Dcf.DownlinkSeen | inet4.5/src/inet/linklayer/ieee80211/mac/coordinationfunction/Dcf.cc:341-365 | the new state is DownlinkSeen |
| CoordinationFunction.Dcf.ProcessLowerFrame | inet4.5/src/inet/linklayer/ieee80211/mac/coordinationfunction/Dcf.cc:313-399 | the channel-access update, then the routing of the frame |
| CoordinationFunction.Dcf.CorruptedFrameReceived | inet4.5/src/inet/linklayer/ieee80211/mac/coordinationfunction/Dcf.cc:656-671 | the new state is CorruptedFrameReceived |
| CoordinationFunction.Dcf.OriginatorProcessFailedFrame | inet4.5/src/inet/linklayer/ieee80211/mac/coordinationfunction/Dcf.cc:607-638 | the new state is OriginatorProcessFailedFrame |
| CoordinationFunction.Dcf.RecipientProcessTransmittedControlResponseFrame | inet4.5/src/inet/linklayer/ieee80211/mac/coordinationfunction/Dcf.cc:279-304 | succeeds iff the pure transition does; the state is unchanged on failure |
| CoordinationFunction.Dcf.TransmissionComplete | inet4.5/src/inet/linklayer/ieee80211/mac/coordinationfunction/Dcf.cc:521-530 | succeeds iff TransmissionComplete does, with its state |
| CoordinationFunction.Dcf.ScheduleStartRxTimer | inet4.5/src/inet/linklayer/ieee80211/mac/coordinationfunction/Dcf.cc:306-311 | succeeds iff the timer is free; the state is unchanged on failure |
| CoordinationFunction.Dcf.StartRxTimerFired | inet4.5/src/inet/linklayer/ieee80211/mac/coordinationfunction/Dcf.cc:164-169 | the new state is StartRxTimerFired |
| CoordinationFunction.Dcf.ChannelGrantedEventFired | inet4.5/src/inet/linklayer/ieee80211/mac/coordinationfunction/Dcf.cc:177-180 | succeeds iff ChannelGrantedEventFired does, with its state |
| CoordinationFunction.Dcf.InitialFtNdfEnqueuingFired | inet4.5/src/inet/linklayer/ieee80211/mac/coordinationfunction/Dcf.cc:182-187 | the new state is InitialFtNdfEnqueuingFired |

## Left out

- The CRC-32 over the frame is not computed: whether the stored FCS matches is an input to `IsFcsOk`.
- Airtime, rates and the duration computation are inputs (`airtime`, `duration`), as are the interframe space chosen by the frame sequence.
- The contention's countdown is outside the core: its backoff slot count is a parameter, and its start and cancel calls are logged.
- Contention-window updates made by the recovery procedure are not modelled: `NonQosRecoveryProcedure`, which is not part of this model, calls the Dcaf's `incrementCw` on a failure and `resetCw` on a success. The model's `cw` changes only through `ChannelAccess.Dcaf.IncrementCw` and `ResetCw`, and no coordinator transition calls them.
- The optional data/management rate control's `frameTransmitted` notice on a failed frame (Dcf.cc:616-618) is not modelled; rate selection is outside the core.
- The random draw behind the `alpha` re-grant rule is a parameter `draw` in [0, 1).
- The frame-sequence handler, the recovery procedure, the ACK handler, RTS/CTS procedures, rate selection, fragmentation and the recipient data service are outside the core. The model records a running flag, and logs as events the calls the coordinator makes to the frame-sequence handler, the CTS and ACK procedures, the recipient data service and, on a failed frame, the recovery procedure and the ACK handler.
- `transmitControlResponseFrame`, `processMgmtFrame`, `recipientProcessReceivedFrame`, `recipientProcessReceivedControlFrame`, `originatorProcessTransmittedFrame`, `originatorProcessReceivedFrame` and `originatorProcessRtsProtectionFailed` are not part of this model. They only hand frames to the components above.
- Statistics, signals, display strings, `WATCH`es and the `saveAvgNdfCounter` timer (Dcf.cc:189-193) are left out. The `ndfPacketCounter` is kept.
- The "unexpected self message" and "unknown message" runtime errors (Rx.cc:75-76, Dcf.cc:195-196) are left out because the model's timers are separate methods.
- Errors: where the source raises a runtime error or fails an ASSERT part-way through, the class methods return `false` and leave the state unchanged. The one exception is the `ASSERT(ifs > sifs)` at initialisation (Dcaf.cc:100-126): `ChannelAccess.Dcaf.constructor` requires `CalculateTimingParameters(m, p).Some?` instead, since a constructor cannot fail; `ModeSetChanged` returns `false` on the same condition. `ContentionEnded`, `TransmissionComplete` and `ChannelGrantedEventFired` leave the state unspecified on failure.
- Rx.h is not part of this model: the medium-free flag before `initialize` is the constructor parameter `initiallyFree`.
- The Dcaf's own `registerContention` call at initialisation (Dcaf.cc:33) is modelled on the receive side only (`Rx.RegisterContention`).
- Mode-set changes on the coordinator side are not modelled: `modeSetCwMin` and `sifs` are fixed in `DcfConfig`.
- Simulation time is an unbounded integer, and the NAV extension a natural number: no overflow of `simtime_t` is modelled.
- `getMediumStatusAtMac` (Rx.cc:168-170) is the field read `mediumFreeAtMac`.
- The okamoto mechanism shares the configuration, duration padding and ACK re-grant rule with cefi; only cefi stations keep a placeholder queued, as in the source.
