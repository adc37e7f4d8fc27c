/** The distributed channel access function (Dcaf) of a DCF station: it derives the interframe
    spaces, keeps the contention window and the forced-traffic window offset, and decides what a
    channel request or release does. The pending queue, the in-progress store and the contention
    countdown are collaborators it owns; the countdown is kept abstract (in progress or not, and
    the calls made to it). */
module ChannelAccess {
  import opened Common

  // ---------------------------------------------------------------------------------------------
  // Timing parameters (IEEE Std 802.11-2012, section 9.3.2.3, equations 9-3 and 9-4)
  // ---------------------------------------------------------------------------------------------

  /** What the PHY mode set supplies; ackTxTime is the airtime of an ACK at the slowest mandatory mode. */
  datatype ModeSet = ModeSet(slotTime: nat, sifs: nat, ackTxTime: nat, cwMin: int, cwMax: int)

  /** Module parameters; -1 stands for "take the mode set's value" (difsn -1: the standard DIFS). */
  datatype DcafParams = DcafParams(difsn: int, cwMin: int, cwMax: int, mechanism: Mechanism,
                                   isFronthaulAffectedAp: bool)

  datatype Timing = Timing(slotTime: nat, sifs: nat, ifs: int, eifs: int, cwMin: int, cwMax: int)

  /** The interframe space used for contention: DIFS = SIFS + 2 slots, or difsn slots. */
  function Ifs(m: ModeSet, difsn: int): int
  {
    if difsn == -1 then m.sifs + 2 * m.slotTime else difsn * m.slotTime
  }

  /** calculateTimingParameters; None is the failed assertion that the IFS exceeds SIFS. */
  function CalculateTimingParameters(m: ModeSet, p: DcafParams): (r: Option<Timing>)
    ensures r.Some? <==> Ifs(m, p.difsn) > m.sifs
    ensures p.difsn == -1 && m.slotTime > 0 ==> r.Some?
    ensures r.Some? ==> r.value.slotTime == m.slotTime && r.value.sifs == m.sifs
    ensures r.Some? && p.difsn == -1 ==> r.value.ifs == m.sifs + 2 * m.slotTime
    ensures r.Some? && p.difsn != -1 ==> r.value.ifs == p.difsn * m.slotTime
    ensures r.Some? ==> m.sifs < r.value.ifs <= r.value.eifs - m.sifs
                        && r.value.eifs == m.sifs + r.value.ifs + m.ackTxTime
    ensures r.Some? ==> r.value.cwMin == (if p.cwMin == -1 then m.cwMin else p.cwMin)
                        && r.value.cwMax == (if p.cwMax == -1 then m.cwMax else p.cwMax)
  {
    var ifs := Ifs(m, p.difsn);
    if ifs > m.sifs then
      Some(Timing(m.slotTime, m.sifs, ifs, m.sifs + ifs + m.ackTxTime,
                  if p.cwMin == -1 then m.cwMin else p.cwMin,
                  if p.cwMax == -1 then m.cwMax else p.cwMax))
    else
      None
  }

  /** The fronthaul-affected role only exists under a forced-traffic mechanism. */
  datatype DcafConfig = DcafConfig(mechanism: Mechanism, isFronthaulAffectedAp: bool)

  function Configure(p: DcafParams): (c: DcafConfig)
    ensures c.isFronthaulAffectedAp ==> IsForcedTrafficMechanism(p.mechanism)
  {
    DcafConfig(p.mechanism, IsForcedTrafficMechanism(p.mechanism) && p.isFronthaulAffectedAp)
  }

  // ---------------------------------------------------------------------------------------------
  // Contention window and forced-traffic offset (IEEE Std 802.11-2012, section 9.3.3)
  // ---------------------------------------------------------------------------------------------

  function Min(a: int, b: int): int
  {
    if a <= b then a else b
  }

  /** One step of the exponential ladder: double plus one, capped at cwMax. */
  function NextCw(cw: int, cwMax: int): (r: int)
    ensures r <= cwMax && r <= 2 * cw + 1
    ensures r == cwMax || r == 2 * cw + 1
  {
    var next := 2 * cw + 1;
    if next > cwMax then cwMax else next
  }

  /** The window is cwMin or at most cwMax; for a well-formed pair it lies in [cwMin, cwMax]. */
  predicate InWindow(x: int, cwMin: int, cwMax: int)
  {
    (x == cwMin || x <= cwMax) && (0 <= cwMin <= cwMax ==> cwMin <= x <= cwMax)
  }

  /** The offset is the window ladder extended with 0 ("send placeholders as fast as possible"). */
  predicate OffsetInWindow(x: int, cwMin: int, cwMax: int)
  {
    x == 0 || InWindow(x, cwMin, cwMax)
  }

  /** incrementCwOffset: a nulled offset restarts at cwMin, any other climbs the ladder. */
  function NextCwOffset(offset: int, cwMin: int, cwMax: int): (r: int)
    ensures offset == 0 ==> r == cwMin
    ensures offset != 0 ==> r == NextCw(offset, cwMax)
    ensures OffsetInWindow(offset, cwMin, cwMax) ==> InWindow(r, cwMin, cwMax)
  {
    if offset == 0 then cwMin else NextCw(offset, cwMax)
  }

  function Pow2(k: nat): (r: nat)
    ensures r >= 1
  {
    if k == 0 then 1 else 2 * Pow2(k - 1)
  }

  /** The window after k consecutive incrementCw calls. */
  function CwAfterIncrements(cw: int, cwMax: int, k: nat): int
  {
    if k == 0 then cw else NextCw(CwAfterIncrements(cw, cwMax, k - 1), cwMax)
  }

  /** The offset after k consecutive incrementCwOffset calls. */
  function OffsetAfterIncrements(offset: int, cwMin: int, cwMax: int, k: nat): int
  {
    if k == 0 then offset else NextCwOffset(OffsetAfterIncrements(offset, cwMin, cwMax, k - 1), cwMin, cwMax)
  }

  /** k increments from cwMin give min(cwMax, 2^k * (cwMin + 1) - 1). */
  lemma {:induction false} CwLadder(cwMin: int, cwMax: int, k: nat)
    requires 0 <= cwMin <= cwMax
    ensures CwAfterIncrements(cwMin, cwMax, k) == Min(cwMax, Pow2(k) * (cwMin + 1) - 1)
  {
    if k > 0 {
      CwLadder(cwMin, cwMax, k - 1);
      var x := Pow2(k - 1) * (cwMin + 1) - 1;
      calc {
        Pow2(k) * (cwMin + 1) - 1;
        (2 * Pow2(k - 1)) * (cwMin + 1) - 1;
        { MulAssoc(2, Pow2(k - 1), cwMin + 1); }
        2 * (Pow2(k - 1) * (cwMin + 1)) - 1;
        2 * x + 1;
      }
    }
  }

  lemma MulAssoc(a: int, b: int, c: int)
    ensures (a * b) * c == a * (b * c)
  {
  }

  /** Every window on the ladder stays within [cwMin, cwMax]. */
  lemma {:induction false} CwAfterIncrementsInWindow(cwMin: int, cwMax: int, k: nat)
    requires 0 <= cwMin <= cwMax
    ensures cwMin <= CwAfterIncrements(cwMin, cwMax, k) <= cwMax
  {
    if k > 0 {
      CwAfterIncrementsInWindow(cwMin, cwMax, k - 1);
    }
  }

  /** After a null, the offset ladder is the window ladder one step behind:
      0, cwMin, 2 cwMin + 1, ... capped at cwMax. */
  lemma {:induction false} NulledOffsetLadder(cwMin: int, cwMax: int, k: nat)
    requires 0 < cwMin <= cwMax
    ensures OffsetAfterIncrements(0, cwMin, cwMax, k + 1) == CwAfterIncrements(cwMin, cwMax, k)
  {
    if k > 0 {
      NulledOffsetLadder(cwMin, cwMax, k - 1);
      CwAfterIncrementsInWindow(cwMin, cwMax, k - 1);
    }
  }

  // ---------------------------------------------------------------------------------------------
  // The contention collaborator
  // ---------------------------------------------------------------------------------------------

  /** The calls the channel access function makes on the contention module. */
  datatype ContentionCall =
    | Start(cw: int, ifs: int, eifs: int, slotTime: nat)
    | StartExtended(cw: int, ifs: int, eifs: int, slotTime: nat, offset: int)
    | Cancel

  datatype Contention = Contention(inProgress: bool, calls: seq<ContentionCall>)

  /** cancelContention: only a running countdown is cancelled, so cancelling is idempotent. */
  function CancelIfRunning(c: Contention): (r: Contention)
    ensures !r.inProgress
    ensures !c.inProgress ==> r == c
    ensures c.inProgress ==> r.calls == c.calls + [Cancel]
  {
    if c.inProgress then Contention(false, c.calls + [Cancel]) else c
  }

  // ---------------------------------------------------------------------------------------------
  // The state of the channel access function, and its transitions
  // ---------------------------------------------------------------------------------------------

  /** hasCallback stands for a non-null callback; ownershipSignals records the values of the
      channel-ownership-changed signal. */
  datatype DcafState = DcafState(
    timing: Timing,
    cw: int,
    cwOffset: int,
    owning: bool,
    hasCallback: bool,
    queue: seq<Frame>,
    inProgress: seq<Frame>,
    contention: Contention,
    ownershipSignals: seq<bool>)

  predicate WindowsValid(s: DcafState)
  {
    InWindow(s.cw, s.timing.cwMin, s.timing.cwMax) && OffsetInWindow(s.cwOffset, s.timing.cwMin, s.timing.cwMax)
  }

  function Initial(t: Timing): (s: DcafState)
    ensures WindowsValid(s) && s.cw == s.cwOffset == t.cwMin
  {
    DcafState(t, t.cwMin, t.cwMin, false, false, [], [], Contention(false, []), [])
  }

  function ContentionCancelled(s: DcafState): DcafState
  {
    s.(contention := CancelIfRunning(s.contention))
  }

  function OffsetIncremented(s: DcafState): (r: DcafState)
    ensures WindowsValid(s) ==> WindowsValid(r)
  {
    s.(cwOffset := NextCwOffset(s.cwOffset, s.timing.cwMin, s.timing.cwMax))
  }

  function OffsetReset(s: DcafState): (r: DcafState)
    ensures WindowsValid(s) ==> WindowsValid(r)
  {
    s.(cwOffset := s.timing.cwMin)
  }

  function OffsetNulled(s: DcafState): (r: DcafState)
    ensures WindowsValid(s) ==> WindowsValid(r)
  {
    s.(cwOffset := 0)
  }

  datatype RequestAction = GrantImmediately | Abstain | StartExtendedContention | StartContention | AlreadyContending

  /** requestChannel's decision, in priority order. */
  function RequestDecision(c: DcafConfig, s: DcafState): (a: RequestAction)
    ensures a == GrantImmediately <==> s.owning
    ensures a == Abstain <==> !s.owning && c.isFronthaulAffectedAp
    ensures a == StartExtendedContention <==>
              !s.owning && !c.isFronthaulAffectedAp && c.mechanism == Cefi && IsFtNdfFrameEnqueued(s.queue)
    ensures a == StartContention ==> !s.contention.inProgress && (!IsFtNdfFrameEnqueued(s.queue) || c.mechanism != Cefi)
    ensures a == StartContention || a == AlreadyContending ==>
              !s.owning && !c.isFronthaulAffectedAp && (a == StartContention <==> !s.contention.inProgress)
  {
    if s.owning then GrantImmediately
    else if c.isFronthaulAffectedAp then Abstain
    else if IsFtNdfFrameEnqueued(s.queue) && c.mechanism == Cefi && !c.isFronthaulAffectedAp then StartExtendedContention
    else if !s.contention.inProgress then StartContention
    else AlreadyContending
  }

  /** requestChannel's effect on the channel access state; a grant is left to the caller. */
  function Requested(c: DcafConfig, s: DcafState): (r: DcafState)
    ensures r == s.(hasCallback := true, contention := r.contention)
    ensures RequestDecision(c, s) == StartExtendedContention ==>
              r.contention.inProgress &&
              r.contention.calls == s.contention.calls +
                [StartExtended(s.cw, s.timing.ifs, s.timing.eifs, s.timing.slotTime, s.cwOffset)]
    ensures RequestDecision(c, s) == StartContention ==>
              r.contention.inProgress &&
              r.contention.calls == s.contention.calls + [Start(s.cw, s.timing.ifs, s.timing.eifs, s.timing.slotTime)]
    ensures RequestDecision(c, s) in {GrantImmediately, Abstain, AlreadyContending} ==> r.contention == s.contention
  {
    var t := s.timing;
    match RequestDecision(c, s)
    case StartExtendedContention =>
      s.(hasCallback := true,
         contention := Contention(true, s.contention.calls + [StartExtended(s.cw, t.ifs, t.eifs, t.slotTime, s.cwOffset)]))
    case StartContention =>
      s.(hasCallback := true, contention := Contention(true, s.contention.calls + [Start(s.cw, t.ifs, t.eifs, t.slotTime)]))
    case _ =>
      s.(hasCallback := true)
  }

  /** channelAccessGranted, once its assertion that a callback is set has passed. */
  function Granted(s: DcafState): DcafState
  {
    s.(owning := true, ownershipSignals := s.ownershipSignals + [true])
  }

  /** releaseChannel's effect; whether a placeholder is requested is WantsPlaceholder. */
  function Released(s: DcafState): DcafState
  {
    s.(owning := false, ownershipSignals := s.ownershipSignals + [false], hasCallback := false)
  }

  /** releaseChannel asks its callback for a placeholder exactly in this case. */
  predicate WantsPlaceholder(c: DcafConfig, s: DcafState)
  {
    c.mechanism == Cefi && !c.isFronthaulAffectedAp && s.queue == [] && s.inProgress == []
  }

  // ---------------------------------------------------------------------------------------------
  // The channel access function as an object
  // ---------------------------------------------------------------------------------------------

  class Dcaf {
    const params: DcafParams
    const config: DcafConfig
    var timing: Timing
    var cw: int
    var cwOffset: int
    var owning: bool
    var hasCallback: bool
    var queue: seq<Frame>
    var inProgressFrames: seq<Frame>
    var contention: Contention
    var ownershipSignals: seq<bool>

    ghost function State(): DcafState
      reads this
    {
      DcafState(timing, cw, cwOffset, owning, hasCallback, queue, inProgressFrames, contention, ownershipSignals)
    }

    ghost predicate Valid()
      reads this
    {
      WindowsValid(State()) && config == Configure(params)
    }

    /** initialize at the link-layer stage, with the mode set's timing. */
    constructor (p: DcafParams, m: ModeSet)
      requires CalculateTimingParameters(m, p).Some?
      ensures Valid() && params == p
      ensures State() == Initial(CalculateTimingParameters(m, p).value)
    {
      params := p;
      config := Configure(p);
      var t := CalculateTimingParameters(m, p).value;
      timing := t;
      cw := t.cwMin;
      cwOffset := t.cwMin;
      owning := false;
      hasCallback := false;
      queue := [];
      inProgressFrames := [];
      contention := Contention(false, []);
      ownershipSignals := [];
    }

    /** The mode set changed: timing is recalculated and both windows restart at cwMin.
        ok is false where the source's assertion that the IFS exceeds SIFS fails. */
    method ModeSetChanged(m: ModeSet) returns (ok: bool)
      requires Valid()
      modifies this
      ensures Valid()
      ensures ok <==> CalculateTimingParameters(m, params).Some?
      ensures ok ==> State() == old(State()).(timing := CalculateTimingParameters(m, params).value,
                                               cw := timing.cwMin, cwOffset := timing.cwMin)
      ensures !ok ==> State() == old(State())
    {
      var r := CalculateTimingParameters(m, params);
      if r.Some? {
        timing := r.value;
        cw := timing.cwMin;
        cwOffset := timing.cwMin;
        ok := true;
      } else {
        ok := false;
      }
    }

    method CancelContention()
      requires Valid()
      modifies this
      ensures Valid() && State() == ContentionCancelled(old(State()))
    {
      if contention.inProgress {
        contention := Contention(false, contention.calls + [Cancel]);
      }
    }

    method IncrementCw()
      requires Valid()
      modifies this
      ensures Valid() && State() == old(State()).(cw := NextCw(old(cw), timing.cwMax))
    {
      var newCw := 2 * cw + 1;
      if newCw > timing.cwMax {
        cw := timing.cwMax;
      } else {
        cw := newCw;
      }
    }

    method ResetCw()
      requires Valid()
      modifies this
      ensures Valid() && State() == old(State()).(cw := timing.cwMin)
    {
      cw := timing.cwMin;
    }

    method IncrementCwOffset()
      requires Valid()
      modifies this
      ensures Valid() && State() == OffsetIncremented(old(State()))
    {
      if cwOffset == 0 {
        ResetCwOffset();
      } else {
        var newCwOffset := 2 * cwOffset + 1;
        if newCwOffset > timing.cwMax {
          cwOffset := timing.cwMax;
        } else {
          cwOffset := newCwOffset;
        }
      }
    }

    method ResetCwOffset()
      requires Valid()
      modifies this
      ensures Valid() && State() == OffsetReset(old(State()))
    {
      cwOffset := timing.cwMin;
    }

    method NullCwOffset()
      requires Valid()
      modifies this
      ensures Valid() && State() == OffsetNulled(old(State()))
    {
      cwOffset := 0;
    }

    /** The channel is granted; ok is false where the assertion that a callback is set fails.
        On success the caller's channelGranted runs next. */
    method ChannelAccessGranted() returns (ok: bool)
      requires Valid()
      modifies this
      ensures Valid()
      ensures ok == old(hasCallback)
      ensures State() == if ok then Granted(old(State())) else old(State())
    {
      ok := hasCallback;
      if ok {
        owning := true;
        ownershipSignals := ownershipSignals + [true];
      }
    }

    /** releaseChannel; enqueue tells the caller to enqueue one placeholder. */
    method ReleaseChannel() returns (enqueue: bool)
      requires Valid()
      modifies this
      ensures Valid()
      ensures enqueue == WantsPlaceholder(config, old(State()))
      ensures State() == Released(old(State()))
    {
      owning := false;
      ownershipSignals := ownershipSignals + [false];
      enqueue := config.mechanism == Cefi && !config.isFronthaulAffectedAp && queue == [] && inProgressFrames == [];
      hasCallback := false;
    }

    /** requestChannel; grant tells the caller to run its channelGranted now. */
    method RequestChannel() returns (grant: bool)
      requires Valid()
      modifies this
      ensures Valid()
      ensures grant <==> old(owning)
      ensures State() == Requested(config, old(State()))
    {
      hasCallback := true;
      var isCefiChannelAccessUsed := config.mechanism == Cefi;
      var isQueueEmpty := queue == [];
      grant := false;
      if owning {
        grant := true;
      } else if config.isFronthaulAffectedAp {
        // a fronthaul-affected access point does not contend
      } else if !isQueueEmpty && isCefiChannelAccessUsed && queue[0].kind == NullData && !config.isFronthaulAffectedAp {
        contention := Contention(true, contention.calls + [StartExtended(cw, timing.ifs, timing.eifs, timing.slotTime, cwOffset)]);
      } else if !contention.inProgress {
        contention := Contention(true, contention.calls + [Start(cw, timing.ifs, timing.eifs, timing.slotTime)]);
      }
    }
  }
}
