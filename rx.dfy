/** The receive side of a DCF station (Rx): virtual carrier sense through the NAV
    (IEEE Std 802.11-2012, section 9.3.2.4), the derived "medium free" status and its
    notification to the registered contention modules, optionally deferred by a fronthaul
    delay, and the integrity check of received frames. */
module MediumTracker {
  import opened Common

  datatype ReceptionState = ReceptionIdle | ReceptionBusy | ReceptionReceiving | ReceptionUndefined

  datatype TransmissionState = TransmissionIdle | TransmissionTransmitting | TransmissionUndefined

  datatype SignalPart = PartNone | PartWhole | PartPreamble | PartHeader | PartData

  // ---------------------------------------------------------------------------------------------
  // Frame integrity
  // ---------------------------------------------------------------------------------------------

  datatype FcsMode = FcsDeclaredIncorrect | FcsDeclaredCorrect | FcsComputed | FcsUnknownMode(code: int)

  /** What the integrity check reads off a received packet. fcsMatches says whether the CRC-32
      computed over the frame equals the FCS carried in the trailer; the CRC itself is not modelled. */
  datatype Integrity = Integrity(hasBitError: bool, dataCorrect: bool, fcsMode: FcsMode, fcsMatches: bool)

  datatype RxError = UnknownFcsMode

  /** isFcsOk: a bit error or incorrect data rejects the frame before the FCS mode is looked at. */
  function IsFcsOk(i: Integrity): (r: Result<bool, RxError>)
    ensures i.hasBitError || !i.dataCorrect ==> r == Ok(false)
    ensures r.Err? <==> !i.hasBitError && i.dataCorrect && i.fcsMode.FcsUnknownMode?
    ensures r == Ok(true) <==>
              !i.hasBitError && i.dataCorrect &&
              (i.fcsMode == FcsDeclaredCorrect || (i.fcsMode == FcsComputed && i.fcsMatches))
  {
    if i.hasBitError || !i.dataCorrect then Ok(false)
    else
      match i.fcsMode
      case FcsDeclaredIncorrect => Ok(false)
      case FcsDeclaredCorrect => Ok(true)
      case FcsComputed => Ok(i.fcsMatches)
      case FcsUnknownMode(_) => Err(UnknownFcsMode)
  }

  // ---------------------------------------------------------------------------------------------
  // The NAV deadline
  // ---------------------------------------------------------------------------------------------

  /** setOrExtendNav on the deadline alone: a zero interval does nothing, and the deadline
      moves to now + interval unless a strictly later one is pending. */
  function ExtendedNav(nav: Option<Time>, now: Time, interval: nat): (r: Option<Time>)
    ensures interval == 0 ==> r == nav
    ensures interval > 0 ==> r.Some? && r.value >= now + interval
    ensures nav.Some? ==> r.Some? && r.value >= nav.value
    ensures r == nav || r == Some(now + interval)
  {
    if interval == 0 then nav
    else if nav.Some? && now + interval < nav.value then nav
    else Some(now + interval)
  }

  function MaxDeadline(a: Option<Time>, b: Option<Time>): Option<Time>
  {
    match (a, b)
    case (None, _) => b
    case (_, None) => a
    case (Some(x), Some(y)) => if x < y then b else a
  }

  /** A NAV-setting event: a received duration field or an own transmission's duration. */
  datatype NavRequest = NavRequest(at: Time, interval: nat)

  /** The absolute deadline a request asks for, if any. */
  function Deadline(q: NavRequest): Option<Time>
  {
    if q.interval == 0 then None else Some(q.at + q.interval)
  }

  function NavAfter(nav: Option<Time>, qs: seq<NavRequest>): Option<Time>
    decreases |qs|
  {
    if qs == [] then nav else NavAfter(ExtendedNav(nav, qs[0].at, qs[0].interval), qs[1..])
  }

  function LatestDeadline(qs: seq<NavRequest>): Option<Time>
  {
    if qs == [] then None else MaxDeadline(Deadline(qs[0]), LatestDeadline(qs[1..]))
  }

  /** While the NAV timer has not fired, the deadline is the latest of all deadlines ever asked for. */
  lemma {:induction false} NavIsLatestDeadline(nav: Option<Time>, qs: seq<NavRequest>)
    ensures NavAfter(nav, qs) == MaxDeadline(nav, LatestDeadline(qs))
    decreases |qs|
  {
    if qs != [] {
      var q := qs[0];
      NavIsLatestDeadline(ExtendedNav(nav, q.at, q.interval), qs[1..]);
      assert ExtendedNav(nav, q.at, q.interval) == MaxDeadline(nav, Deadline(q));
    }
  }

  // ---------------------------------------------------------------------------------------------
  // Medium status and notifications
  // ---------------------------------------------------------------------------------------------

  /** Mode switching counts as busy: the medium is free only while idle in reception, not in
      transmitter mode, and without a pending NAV. */
  predicate MediumFreeFrom(reception: ReceptionState, transmission: TransmissionState, navPending: bool)
  {
    reception == ReceptionIdle && transmission == TransmissionUndefined && !navPending
  }

  type ListenerId = nat

  /** A call on a registered contention module. */
  datatype Notice = MediumStateChanged(listener: ListenerId, free: bool) | CorruptedFrame(listener: ListenerId)

  function Broadcast(listeners: seq<ListenerId>, free: bool): seq<Notice>
  {
    seq(|listeners|, i requires 0 <= i < |listeners| => MediumStateChanged(listeners[i], free))
  }

  function CorruptedToAll(listeners: seq<ListenerId>): seq<Notice>
  {
    seq(|listeners|, i requires 0 <= i < |listeners| => CorruptedFrame(listeners[i]))
  }

  /** A notification scheduled fhDelay ahead, carrying the status it will announce. */
  datatype Deferred = Deferred(at: Time, free: bool)

  datatype RxConfig = RxConfig(address: MacAddress, fhDelay: nat)

  /** navSignals records the values of the NAV-changed signal, drops the reasons of the
      packet-dropped signal. */
  datatype RxState = RxState(
    reception: ReceptionState,
    transmission: TransmissionState,
    receivedPart: SignalPart,
    nav: Option<Time>,
    mediumFree: bool,
    mediumFreeAtMac: bool,
    deferred: seq<Deferred>,
    contentions: seq<ListenerId>,
    notices: seq<Notice>,
    navSignals: seq<int>,
    drops: seq<DropReason>)

  predicate Consistent(s: RxState)
  {
    s.mediumFree == MediumFreeFrom(s.reception, s.transmission, s.nav.Some?)
  }

  /** recomputeMediumFree: listeners hear of a change only when the status flips, at once
      without a fronthaul delay, through a deferred notification with one. */
  function Recomputed(c: RxConfig, s: RxState, now: Time): (r: RxState)
    ensures Consistent(r)
    ensures r == s.(mediumFree := r.mediumFree, notices := r.notices, deferred := r.deferred)
    ensures r.mediumFree == s.mediumFree ==> r == s
    ensures r.mediumFree != s.mediumFree && c.fhDelay == 0 ==>
              r.notices == s.notices + Broadcast(s.contentions, r.mediumFree) && r.deferred == s.deferred
    ensures r.mediumFree != s.mediumFree && c.fhDelay != 0 ==>
              r.deferred == s.deferred + [Deferred(now + c.fhDelay, r.mediumFree)] && r.notices == s.notices
  {
    var free := MediumFreeFrom(s.reception, s.transmission, s.nav.Some?);
    if free == s.mediumFree then s
    else if c.fhDelay != 0 then s.(mediumFree := free, deferred := s.deferred + [Deferred(now + c.fhDelay, free)])
    else s.(mediumFree := free, notices := s.notices + Broadcast(s.contentions, free))
  }

  function ReceptionChanged(c: RxConfig, s: RxState, now: Time, st: ReceptionState): RxState
  {
    Recomputed(c, s.(reception := st), now)
  }

  function SignalPartChanged(c: RxConfig, s: RxState, now: Time, part: SignalPart): RxState
  {
    Recomputed(c, s.(receivedPart := part), now)
  }

  function TransmissionChanged(c: RxConfig, s: RxState, now: Time, st: TransmissionState): RxState
  {
    Recomputed(c, s.(transmission := st), now)
  }

  /** setOrExtendNav; the NAV-changed signal reports the old remaining time (0 if none) and the new one. */
  function NavSet(c: RxConfig, s: RxState, now: Time, interval: nat): (r: RxState)
    ensures r.nav == ExtendedNav(s.nav, now, interval)
    ensures Consistent(s) ==> Consistent(r)
    ensures r.navSignals == s.navSignals ==> r == s
    ensures r.navSignals != s.navSignals ==>
              r.nav == Some(now + interval) &&
              r.navSignals == s.navSignals + [if s.nav.Some? then s.nav.value - now else 0, interval]
    ensures r.mediumFreeAtMac == s.mediumFreeAtMac && r.drops == s.drops && r.contentions == s.contentions
  {
    if interval == 0 || (s.nav.Some? && now + interval < s.nav.value) then s
    else
      var before := if s.nav.Some? then s.nav.value - now else 0;
      Recomputed(c, s.(nav := Some(now + interval), navSignals := s.navSignals + [before, interval]), now)
  }

  /** The NAV timer fires. */
  function NavExpired(c: RxConfig, s: RxState, now: Time): (r: RxState)
    ensures Consistent(r) && r.nav.None?
  {
    Recomputed(c, s.(nav := None, navSignals := s.navSignals + [0]), now)
  }

  /** The earliest deferred notification fires: only now does the status seen at the MAC change. */
  function DeferredFired(s: RxState): (r: RxState)
    requires s.deferred != []
    ensures r.mediumFreeAtMac == s.deferred[0].free && r.deferred == s.deferred[1..]
    ensures r.notices == s.notices + Broadcast(s.contentions, s.deferred[0].free)
    ensures Consistent(s) ==> Consistent(r)
  {
    s.(mediumFreeAtMac := s.deferred[0].free, deferred := s.deferred[1..],
       notices := s.notices + Broadcast(s.contentions, s.deferred[0].free))
  }

  /** registerContention: the new listener first hears the current status. */
  function ContentionRegistered(s: RxState, l: ListenerId): RxState
  {
    s.(notices := s.notices + [MediumStateChanged(l, s.mediumFree)], contentions := s.contentions + [l])
  }

  /** lowerFrameReceived: a frame failing the integrity check is dropped, every listener hears of a
      corrupted frame, and the NAV is untouched; a good frame addressed elsewhere sets the NAV. */
  function LowerFrameOutcome(c: RxConfig, s: RxState, now: Time, f: Frame, i: Integrity): (r: (Result<bool, RxError>, RxState))
    ensures r.0 == IsFcsOk(i)
    ensures r.0.Err? ==> r.1 == s
    ensures r.0 == Ok(false) ==>
              r.1 == s.(drops := s.drops + [IncorrectlyReceived], notices := s.notices + CorruptedToAll(s.contentions))
    ensures r.0 == Ok(true) && f.receiver == c.address ==> r.1 == s
    ensures r.0 == Ok(true) && f.receiver != c.address ==> r.1 == NavSet(c, s, now, f.durationField)
    ensures r.0 == Ok(true) && f.receiver != c.address ==> r.1.nav == ExtendedNav(s.nav, now, f.durationField)
    ensures r.1.mediumFreeAtMac == s.mediumFreeAtMac
    ensures Consistent(s) ==> Consistent(r.1)
  {
    match IsFcsOk(i)
    case Err(e) => (Err(e), s)
    case Ok(true) =>
      (Ok(true), if f.receiver != c.address then NavSet(c, s, now, f.durationField) else s)
    case Ok(false) =>
      (Ok(false), s.(drops := s.drops + [IncorrectlyReceived], notices := s.notices + CorruptedToAll(s.contentions)))
  }

  // ---------------------------------------------------------------------------------------------
  // Runs of medium events: a single listener sees strictly alternating values
  // ---------------------------------------------------------------------------------------------

  /** The events after which the medium status is recomputed. */
  datatype MediumEvent =
    | ReceptionEvent(reception: ReceptionState)
    | SignalPartEvent(part: SignalPart)
    | TransmissionEvent(transmission: TransmissionState)
    | NavEvent(interval: nat)
    | NavExpiryEvent

  function Step(c: RxConfig, s: RxState, now: Time, e: MediumEvent): RxState
  {
    match e
    case ReceptionEvent(st) => ReceptionChanged(c, s, now, st)
    case SignalPartEvent(p) => SignalPartChanged(c, s, now, p)
    case TransmissionEvent(st) => TransmissionChanged(c, s, now, st)
    case NavEvent(d) => NavSet(c, s, now, d)
    case NavExpiryEvent => NavExpired(c, s, now)
  }

  /** A run of medium events, each with the time at which it happens. */
  function Run(c: RxConfig, s: RxState, es: seq<(Time, MediumEvent)>): RxState
    decreases |es|
  {
    if es == [] then s else Run(c, Step(c, s, es[0].0, es[0].1), es[1..])
  }

  /** The notices a single listener l received, in order, alternate starting from the negation of prev. */
  predicate AlternatesFrom(l: ListenerId, prev: bool, ns: seq<Notice>)
  {
    forall i :: 0 <= i < |ns| ==> ns[i] == MediumStateChanged(l, if i % 2 == 0 then !prev else prev)
  }

  /** One recomputation either leaves the status and the notices alone, or flips the status and
      tells the lone listener l the new one. */
  predicate SilentOrFlip(l: ListenerId, s: RxState, s1: RxState)
  {
    Consistent(s1) && s1.contentions == [l] &&
    ((s1.mediumFree == s.mediumFree && s1.notices == s.notices) ||
     (s1.mediumFree != s.mediumFree && s1.notices == s.notices + [MediumStateChanged(l, s1.mediumFree)]))
  }

  /** Since s, the lone listener l has heard an alternating series starting with the opposite of
      s's status, and the status now is the last one it heard. */
  predicate AlternatingSince(l: ListenerId, s: RxState, r: RxState)
  {
    Consistent(r) && r.contentions == [l] &&
    |s.notices| <= |r.notices| && r.notices[..|s.notices|] == s.notices &&
    AlternatesFrom(l, s.mediumFree, r.notices[|s.notices|..]) &&
    r.mediumFree == (if (|r.notices| - |s.notices|) % 2 == 0 then s.mediumFree else !s.mediumFree)
  }

  lemma StepFlipsOrIsSilent(c: RxConfig, s: RxState, now: Time, e: MediumEvent, l: ListenerId)
    requires c.fhDelay == 0 && Consistent(s) && s.contentions == [l]
    ensures SilentOrFlip(l, s, Step(c, s, now, e))
  {
    var r := Step(c, s, now, e);
    assert Broadcast([l], r.mediumFree) == [MediumStateChanged(l, r.mediumFree)];
  }

  lemma AlternatingSinceStep(l: ListenerId, s: RxState, s1: RxState, r: RxState)
    requires SilentOrFlip(l, s, s1) && AlternatingSince(l, s1, r)
    ensures AlternatingSince(l, s, r)
  {
    var n0 := |s.notices|;
    var n1 := |s1.notices|;
    if n1 != n0 {
      assert r.notices[..n0] == s.notices by {
        assert r.notices[..n0] == r.notices[..n1][..n0];
      }
      assert r.notices[n0..] == [s1.notices[n0]] + r.notices[n1..];
      PrependFlip(l, s.mediumFree, s1.notices[n0], r.notices[n1..]);
    }
  }

  lemma PrependFlip(l: ListenerId, prev: bool, x: Notice, tail: seq<Notice>)
    requires x == MediumStateChanged(l, !prev) && AlternatesFrom(l, !prev, tail)
    ensures AlternatesFrom(l, prev, [x] + tail)
  {
    forall i | 0 <= i < |tail| + 1
      ensures ([x] + tail)[i] == MediumStateChanged(l, if i % 2 == 0 then !prev else prev)
    {
      if i > 0 {
        assert ([x] + tail)[i] == tail[i - 1];
      }
    }
  }

  /** Without a fronthaul delay, a lone listener is never told the same status twice in a row:
      what it hears alternates, starting with the opposite of the status at the start of the run,
      and the last thing it heard is the current status. */
  lemma {:induction false} RunNotifiesOnlyFlips(c: RxConfig, s: RxState, es: seq<(Time, MediumEvent)>, l: ListenerId)
    requires c.fhDelay == 0 && Consistent(s) && s.contentions == [l]
    ensures AlternatingSince(l, s, Run(c, s, es))
    decreases |es|
  {
    if es == [] {
      assert s.notices[|s.notices|..] == [];
    } else {
      var s1 := Step(c, s, es[0].0, es[0].1);
      StepFlipsOrIsSilent(c, s, es[0].0, es[0].1, l);
      RunNotifiesOnlyFlips(c, s1, es[1..], l);
      AlternatingSinceStep(l, s, s1, Run(c, s1, es[1..]));
    }
  }

  // ---------------------------------------------------------------------------------------------
  // The medium tracker as an object
  // ---------------------------------------------------------------------------------------------

  class Rx {
    const config: RxConfig
    var receptionState: ReceptionState
    var transmissionState: TransmissionState
    var receivedPart: SignalPart
    var endNav: Option<Time>
    var mediumFree: bool
    var mediumFreeAtMac: bool
    var deferred: seq<Deferred>
    var contentions: seq<ListenerId>
    var notices: seq<Notice>
    var navSignals: seq<int>
    var drops: seq<DropReason>

    ghost function State(): RxState
      reads this
    {
      RxState(receptionState, transmissionState, receivedPart, endNav, mediumFree, mediumFreeAtMac,
              deferred, contentions, notices, navSignals, drops)
    }

    ghost predicate Valid()
      reads this
    {
      Consistent(State())
    }

    /** The first initialization stage: the radio states are undefined, no NAV is pending and the
        status seen at the MAC is free. The initial medium status comes from the declarations,
        which are not part of this model, so it is a parameter. */
    constructor (address: MacAddress, fhDelay: nat, initiallyFree: bool)
      ensures config == RxConfig(address, fhDelay)
      ensures State() == RxState(ReceptionUndefined, TransmissionUndefined, PartNone, None, initiallyFree, true,
                                 [], [], [], [], [])
    {
      config := RxConfig(address, fhDelay);
      receptionState := ReceptionUndefined;
      transmissionState := TransmissionUndefined;
      receivedPart := PartNone;
      endNav := None;
      mediumFree := initiallyFree;
      mediumFreeAtMac := true;
      deferred := [];
      contentions := [];
      notices := [];
      navSignals := [];
      drops := [];
    }

    /** The interface-configuration stage recomputes the status, which establishes the invariant. */
    method Initialize(now: Time)
      modifies this
      ensures Valid() && State() == Recomputed(config, old(State()), now)
    {
      RecomputeMediumFree(now);
    }

    method RegisterContention(l: ListenerId)
      requires Valid()
      modifies this
      ensures Valid() && State() == ContentionRegistered(old(State()), l)
    {
      notices := notices + [MediumStateChanged(l, mediumFree)];
      contentions := contentions + [l];
    }

    method IsReceptionInProgress() returns (r: bool)
      ensures r <==> receptionState == ReceptionReceiving && (receivedPart == PartWhole || receivedPart == PartData)
    {
      r := receptionState == ReceptionReceiving && (receivedPart == PartWhole || receivedPart == PartData);
    }

    /** notifyContentionOfMediumChange: one call per registered contention, in registration order. */
    method NotifyContentionOfMediumChange(free: bool)
      modifies this`notices
      ensures notices == old(notices) + Broadcast(contentions, free)
    {
      var i := 0;
      while i < |contentions|
        invariant 0 <= i <= |contentions|
        invariant notices == old(notices) + Broadcast(contentions[..i], free)
      {
        assert Broadcast(contentions[..i + 1], free) == Broadcast(contentions[..i], free) + [MediumStateChanged(contentions[i], free)];
        notices := notices + [MediumStateChanged(contentions[i], free)];
        i := i + 1;
      }
      assert contentions[..i] == contentions;
    }

    method StartMediumFreeTimer(now: Time, free: bool)
      modifies this`deferred
      ensures deferred == old(deferred) + [Deferred(now + config.fhDelay, free)]
    {
      deferred := deferred + [Deferred(now + config.fhDelay, free)];
    }

    method RecomputeMediumFree(now: Time)
      modifies this
      ensures State() == Recomputed(config, old(State()), now)
    {
      var oldMediumFree := mediumFree;
      mediumFree := receptionState == ReceptionIdle && transmissionState == TransmissionUndefined && endNav.None?;
      if mediumFree != oldMediumFree {
        var isFhDevice := config.fhDelay != 0;
        if isFhDevice {
          StartMediumFreeTimer(now, mediumFree);
        } else {
          NotifyContentionOfMediumChange(mediumFree);
        }
      }
    }

    method ReceptionStateChanged(now: Time, st: ReceptionState)
      modifies this
      ensures Valid() && State() == ReceptionChanged(config, old(State()), now, st)
    {
      receptionState := st;
      RecomputeMediumFree(now);
    }

    method ReceivedSignalPartChanged(now: Time, part: SignalPart)
      modifies this
      ensures Valid() && State() == SignalPartChanged(config, old(State()), now, part)
    {
      receivedPart := part;
      RecomputeMediumFree(now);
    }

    method TransmissionStateChanged(now: Time, st: TransmissionState)
      modifies this
      ensures Valid() && State() == TransmissionChanged(config, old(State()), now, st)
    {
      transmissionState := st;
      RecomputeMediumFree(now);
    }

    method SetOrExtendNav(now: Time, navInterval: nat)
      requires Valid()
      modifies this
      ensures Valid() && State() == NavSet(config, old(State()), now, navInterval)
    {
      if navInterval > 0 {
        var newEnd := now + navInterval;
        if endNav.Some? {
          var oldEnd := endNav.value;
          if newEnd < oldEnd {
            return; // never decrease the NAV
          }
          navSignals := navSignals + [oldEnd - now];
        } else {
          navSignals := navSignals + [0];
        }
        endNav := Some(newEnd);
        navSignals := navSignals + [newEnd - now];
        RecomputeMediumFree(now);
      }
    }

    /** The station's own transmission sets the NAV exactly as a received duration would. */
    method FrameTransmitted(now: Time, durationField: nat)
      requires Valid()
      modifies this
      ensures Valid() && State() == NavSet(config, old(State()), now, durationField)
    {
      SetOrExtendNav(now, durationField);
    }

    method NavTimerExpired(now: Time)
      requires Valid() && endNav.Some?
      modifies this
      ensures Valid() && State() == NavExpired(config, old(State()), now)
    {
      endNav := None;
      navSignals := navSignals + [0];
      RecomputeMediumFree(now);
    }

    /** A deferred notification fires; all carry the same delay, so the earliest scheduled fires first. */
    method DeferredNotificationFired()
      requires Valid() && deferred != []
      modifies this
      ensures Valid() && State() == DeferredFired(old(State()))
    {
      var d := deferred[0];
      deferred := deferred[1..];
      NotifyContentionOfMediumChange(d.free);
      mediumFreeAtMac := d.free;
    }

    method NotifyCorruptedFrame()
      modifies this`notices
      ensures notices == old(notices) + CorruptedToAll(contentions)
    {
      var i := 0;
      while i < |contentions|
        invariant 0 <= i <= |contentions|
        invariant notices == old(notices) + CorruptedToAll(contentions[..i])
      {
        assert CorruptedToAll(contentions[..i + 1]) == CorruptedToAll(contentions[..i]) + [CorruptedFrame(contentions[i])];
        notices := notices + [CorruptedFrame(contentions[i])];
        i := i + 1;
      }
      assert contentions[..i] == contentions;
    }

    method LowerFrameReceived(now: Time, f: Frame, i: Integrity) returns (r: Result<bool, RxError>)
      requires Valid()
      modifies this
      ensures Valid() && (r, State()) == LowerFrameOutcome(config, old(State()), now, f, i)
    {
      r := IsFcsOk(i);
      if r == Ok(true) {
        if f.receiver != config.address {
          SetOrExtendNav(now, f.durationField);
        }
      } else if r == Ok(false) {
        drops := drops + [IncorrectlyReceived];
        NotifyCorruptedFrame();
      }
    }
  }
}
