/** Types shared by the medium tracker, the channel access function and the coordination function
    of an IEEE 802.11 DCF station. */
module Common {

  datatype Option<T> = None | Some(value: T)

  datatype Result<T, E> = Ok(value: T) | Err(error: E)

  /** Simulation time in ticks: the simulator's time type is fixed point, so integers are exact. */
  type Time = int

  /** A 48-bit IEEE 802 MAC address; the first transmitted octet is the most significant one. */
  type MacAddress = a: nat | a < 0x1_0000_0000_0000

  /** The address left unspecified (all zeros), as carried by a freshly built header. */
  const Unspecified: MacAddress := 0

  /** The individual/group bit: the least significant bit of the first octet. */
  predicate IsMulticast(a: MacAddress)
  {
    (a / 0x100_0000_0000) % 2 == 1
  }

  /** The MAC header types the core distinguishes. NullData is the forced-traffic placeholder
      ("FT NDF"), a data header without payload. */
  datatype FrameKind = Data | NullData | Mgmt | Rts | Cts | Ack

  predicate IsDataOrMgmt(k: FrameKind)
  {
    k == Data || k == NullData || k == Mgmt
  }

  /** The header fields the core reads; address3 is only meaningful for data and management
      headers, transmitter only for two-address headers. */
  datatype Frame = Frame(kind: FrameKind, receiver: MacAddress, transmitter: MacAddress,
                         address3: MacAddress, durationField: nat, retry: bool)

  /** The value of the fhChannelAccessMechanism parameter: "cefi", "okamoto" or anything else. */
  datatype Mechanism = Cefi | Okamoto | Standard

  predicate IsForcedTrafficMechanism(m: Mechanism)
  {
    m == Cefi || m == Okamoto
  }

  datatype DropReason = IncorrectlyReceived | NotAddressedToUs | RetryLimitReached

  /** A placeholder sits at the head of the pending queue (the isFtNdfFrameEnqueued test). */
  predicate IsFtNdfFrameEnqueued(queue: seq<Frame>): (r: bool)
    ensures r ==> HasFrameToTransmit(queue, [])
    ensures r ==> queue[0].kind == NullData
    ensures !r ==> queue == [] || queue[0].kind != NullData
  {
    |queue| > 0 && queue[0].kind == NullData
  }

  /** The pending queue and the in-progress store together hold something to send. */
  predicate HasFrameToTransmit(queue: seq<Frame>, inProgress: seq<Frame>): (r: bool)
    ensures r <==> |queue| + |inProgress| > 0
    ensures !r ==> queue == [] && inProgress == []
  {
    queue != [] || inProgress != []
  }
}
