/*
 * Data model of the Zigbee end-device network connection manager:
 * the stack's status values, the one-shot triggers, the effects the manager
 * asks of the outside world, the persisted node-data token, and the pure
 * lookups (friendly names, token validity, rejoin channel masks).
 */
module ConnTypes {

  newtype uint8 = x: int | 0 <= x < 0x100
  newtype uint16 = x: int | 0 <= x < 0x1_0000

  /** A network-state code the stack does not name: the named states take
      the codes 0 to 6. */
  type UnnamedNetworkCode = c: uint8 | c > 6 witness 7

  /** A status code other than the four the manager tells apart
      (success 0x00, fatal error 0x01, network up 0x90, network down 0x91). */
  type OtherStatusCode = c: uint8 | c != 0x00 && c != 0x01 && c != 0x90 && c != 0x91 witness 0x02

  /** The stack's network state, as reported by the stack when asked.
      Unrecognized stands for any value outside the seven named states. */
  datatype NetworkStatus =
    | NoNetwork
    | JoiningNetwork
    | JoinedNetwork
    | JoinedNetworkNoParent
    | JoinedNetworkS2SInitiator
    | JoinedNetworkS2STarget
    | LeavingNetwork
    | Unrecognized(code: UnnamedNetworkCode)

  /** Status codes the stack hands to the callbacks and returns from rejoin. */
  datatype EmberStatus =
    | Success
    | ErrFatal
    | NetworkUp
    | NetworkDown
    | OtherStatus(code: OtherStatusCode)

  /** A one-shot event of the cooperative scheduler. Setting it overwrites
      whatever was pending before. */
  datatype Trigger = Inactive | Immediate | Delayed(ms: nat)

  /** A request the manager makes of the stack or of the status LED. */
  datatype Effect =
    | SteeringStart
      /** Find-and-rejoin with the current network key, reason "no parent". */
    | Rejoin(channelMask: bv32)
    | LeaveNetwork
    | SetPowerDescriptor
    | LedOn(durationMs: nat)
    | LedOff(durationMs: nat)
    | LedCounted(count: nat, durationMs: nat)

  /** The persisted stack node-data token, as far as the manager reads it. */
  datatype NodeDataToken = NodeDataToken(panId: uint16, nodeId: uint16, radioFreqChannel: uint8)

  /** LED timings and counts of the shipped configuration header. */
  const LedBlinkShortMs: nat := 200
  const LedBlinkLongMs: nat := 750
  const LedBlinkIdentifyMs: nat := 500
  const NetworkUpBlinkCount: nat := 3

  /** Delay after which the identify blink is re-armed. */
  const IdentifyRearmMs: nat := 2000

  /** The "no remembered channel" value stored in currentChannel. */
  const ChannelUnknown: nat := 0xFF

  /** The 2.4 GHz IEEE 802.15.4 channels 11 to 26, one bit per channel. */
  const AllChannelsMask: bv32 := 0x07FF_F800

  /** A token names a network the device already belongs to: a real PAN id
      (neither 0 nor the erased 0xFFFF) and a real node id (neither the
      erased 0xFFFF nor the "no node id" 0xFFFE). */
  predicate IsValidToken(t: NodeDataToken): (ok: bool)
    ensures t.panId == 0 ==> !ok
    ensures t.panId == 0xFFFF || t.nodeId == 0xFFFF ==> !ok
  {
    t.panId != 0 && t.panId != 0xFFFF && t.nodeId != 0xFFFF && t.nodeId != 0xFFFE
  }

  /** A channel the single-channel rejoin may target. The "no remembered
      channel" value is never one, and the mask bit fits 32 bits. */
  predicate IsRejoinChannel(ch: nat): (ok: bool)
    ensures ok ==> ch != ChannelUnknown && ch < 32
  {
    11 <= ch <= 26
  }

  /** `1 << channel`: the rejoin mask that selects exactly one channel. */
  function ChannelMask(ch: nat): (m: bv32)
    requires IsRejoinChannel(ch)
    ensures m != 0 && m & (m - 1) == 0
    ensures m & AllChannelsMask == m
  {
    (1 as bv32) << ch
  }

  /** Two different channels never share a rejoin mask. */
  lemma ChannelMaskInjective(a: nat, b: nat)
    requires IsRejoinChannel(a) && IsRejoinChannel(b) && a != b
    ensures ChannelMask(a) != ChannelMask(b)
  {
  }

  /** Human-readable name of a network state, for diagnostics. */
  function FriendlyName(s: NetworkStatus): (name: string)
    ensures |name| > 0
    ensures name == "Unknown network state" <==> s.Unrecognized?
  {
    match s
    case NoNetwork => "No Network"
    case JoiningNetwork => "Joining Network"
    case JoinedNetwork => "Joined Network"
    case JoinedNetworkNoParent => "Joined Network No Parent"
    case JoinedNetworkS2SInitiator => "Joined Network S2S Initiator"
    case JoinedNetworkS2STarget => "Joined Network S2S Target"
    case LeavingNetwork => "Leaving Network"
    case Unrecognized(_) => "Unknown network state"
  }

  /** The name tells the seven recognised states apart. */
  lemma FriendlyNameInjective(s: NetworkStatus, t: NetworkStatus)
    requires !s.Unrecognized? && !t.Unrecognized? && s != t
    ensures FriendlyName(s) != FriendlyName(t)
  {
  }
}
