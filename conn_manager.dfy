/*
 * The network connection manager of a Zigbee end device: the join/rejoin
 * state machine with attempt limiting and exponential backoff, the two
 * one-shot triggers that drive it and the status LED, and the callbacks
 * through which the stack reports network up, network down and the end of
 * network steering.
 *
 * What the stack answers (its current network state, steering and rejoin
 * results, the persisted token, the identify time) comes in as parameters;
 * what the manager asks of the stack and of the LED is appended to `effects`.
 */
module ConnManager {
  import opened ConnTypes
  import opened Backoff

  class ConnectionManager {
    /** The compile-time knobs. */
    const cfg: Config

    // The process-wide network state record.
    /** Join attempts scheduled since the last reset (a uint8 in the device). */
    var joinAttempt: nat
    /** True while a steering operation started here has not completed. */
    var isCurrentlySteering: bool
    /** Whether persisted network credentials were found. */
    var haveNetworkToken: bool
    /** The remembered radio channel, or ChannelUnknown. */
    var currentChannel: nat

    /** The commissioning-LED trigger. */
    var ledTrigger: Trigger
    /** The network seeker/joiner trigger. */
    var joinTrigger: Trigger

    /** Every request made of the stack and the LED so far, oldest first. */
    var effects: seq<Effect>

    /** The state machine's invariant: the counter never passes the limit by
        more than one, a pending delay is always a backoff within its bounds
        (or, for the LED, the identify re-arm delay), and the steering flag is
        set only once steering has been started. */
    ghost predicate Valid()
      reads this
      ensures Valid() ==> joinAttempt < 0x100
    {
      InAnnotatedRanges(cfg) &&
      joinAttempt <= cfg.maxRejoinAttempts + 1 &&
      (joinTrigger.Delayed? ==>
         1000 * cfg.rejoinBackoffS <= joinTrigger.ms <= 1000 * cfg.maxRejoinBackoffS) &&
      (ledTrigger.Delayed? ==> ledTrigger.ms == IdentifyRearmMs) &&
      (isCurrentlySteering ==> SteeringStart in effects) &&
      currentChannel <= 0xFF
    }

    /** The counter and join trigger after `networkHandlerAttemptToJoin` ran
        with `from` attempts already counted: past the limit it gives up with
        the trigger inactive and the counter as it was; otherwise it arms the
        trigger and counts exactly one more attempt. */
    ghost predicate ScheduledFrom(from: nat)
      reads this
    {
      InAnnotatedRanges(cfg) &&
      if from > cfg.maxRejoinAttempts then
        joinAttempt == from && joinTrigger == Inactive
      else
        joinAttempt == from + 1 && joinTrigger == NextJoinTrigger(cfg, from)
    }

    /** The zero-initialised static state before init runs. */
    constructor (c: Config)
      requires InAnnotatedRanges(c)
      ensures Valid() && cfg == c
      ensures joinAttempt == 0 && !isCurrentlySteering
      ensures !haveNetworkToken && currentChannel == 0
      ensures ledTrigger == Inactive && joinTrigger == Inactive
      ensures effects == []
    {
      cfg := c;
      joinAttempt := 0;
      isCurrentlySteering := false;
      haveNetworkToken := false;
      currentChannel := 0;
      ledTrigger := Inactive;
      joinTrigger := Inactive;
      effects := [];
    }

    /** `networkHandlerResetState`: start a fresh join cycle. */
    method ResetState()
      requires Valid()
      modifies this`joinAttempt, this`isCurrentlySteering
      ensures Valid()
      ensures joinAttempt == 0 && !isCurrentlySteering
    {
      joinAttempt := 0;
      isCurrentlySteering := false;
    }

    /** `networkHandlerAttemptToJoin`: cancel the pending join, optionally
        restart the cycle, then give up past the attempt limit or schedule
        the next steering attempt with backoff. */
    method AttemptToJoin(restart: bool)
      requires Valid()
      modifies this`joinTrigger, this`joinAttempt, this`isCurrentlySteering
      ensures Valid()
      ensures isCurrentlySteering == (!restart && old(isCurrentlySteering))
      ensures ScheduledFrom(if restart then 0 else old(joinAttempt))
    {
      joinTrigger := Inactive;
      if restart {
        ResetState();
      }
      if joinAttempt > cfg.maxRejoinAttempts {
        return;
      }
      if joinAttempt == 0 {
        joinTrigger := Immediate;
      } else {
        var delayS := BackoffSeconds(cfg, joinAttempt);
        joinTrigger := Delayed(delayS * 1000);
      }
      joinAttempt := joinAttempt + 1;
    }

    /** The stack-status callback. Network down: stop the LED trigger, show
        the long blink, and schedule a join unless steering is already in
        progress. Network up: set the power descriptor, forget past attempts,
        show the success blink. Any other status: nothing. */
    method OnStackStatus(status: EmberStatus)
      requires Valid()
      modifies this`ledTrigger, this`effects, this`joinTrigger, this`joinAttempt,
               this`isCurrentlySteering
      ensures Valid()
      ensures isCurrentlySteering == old(isCurrentlySteering)
      ensures status == NetworkDown ==>
        ledTrigger == Inactive && effects == old(effects) + [LedOn(LedBlinkLongMs)]
      ensures status == NetworkDown && !old(isCurrentlySteering) ==>
        ScheduledFrom(old(joinAttempt))
      ensures status == NetworkDown && old(isCurrentlySteering) ==>
        joinAttempt == old(joinAttempt) && joinTrigger == old(joinTrigger)
      ensures status == NetworkUp ==>
        joinAttempt == 0 && joinTrigger == old(joinTrigger) && ledTrigger == old(ledTrigger) &&
        effects == old(effects) + [SetPowerDescriptor, LedCounted(NetworkUpBlinkCount, LedBlinkShortMs)]
      ensures status != NetworkDown && status != NetworkUp ==>
        joinAttempt == old(joinAttempt) && joinTrigger == old(joinTrigger) &&
        ledTrigger == old(ledTrigger) && effects == old(effects)
    {
      if status == NetworkDown {
        ledTrigger := Inactive;
        effects := effects + [LedOn(LedBlinkLongMs)];
        if !isCurrentlySteering {
          AttemptToJoin(false);
        }
      } else if status == NetworkUp {
        effects := effects + [SetPowerDescriptor];
        joinAttempt := 0;
        effects := effects + [LedCounted(NetworkUpBlinkCount, LedBlinkShortMs)];
      }
    }

    /** The steering-complete callback: steering is over; on failure the
        current cycle continues with the next attempt. */
    method OnSteeringComplete(status: EmberStatus)
      requires Valid()
      modifies this`isCurrentlySteering, this`joinTrigger, this`joinAttempt
      ensures Valid()
      ensures !isCurrentlySteering
      ensures status == Success ==>
        joinAttempt == old(joinAttempt) && joinTrigger == old(joinTrigger)
      ensures status != Success ==> ScheduledFrom(old(joinAttempt))
    {
      isCurrentlySteering := false;
      if status != Success {
        AttemptToJoin(false);
      }
    }

    /** The join trigger fired with the stack in state `nwk`. The scheduler
        runs the handler only while the trigger is pending, and consumes the
        one-shot trigger; the handler then starts steering when
        there is no network, hands over to the LED trigger when joined, and
        otherwise only logs. */
    method OnJoinTriggerFired(nwk: NetworkStatus)
      requires Valid() && joinTrigger != Inactive
      modifies this`joinTrigger, this`ledTrigger, this`isCurrentlySteering, this`effects
      ensures Valid()
      ensures joinTrigger == Inactive
      ensures nwk == NoNetwork ==>
        isCurrentlySteering && ledTrigger == old(ledTrigger) &&
        effects == old(effects) + [SteeringStart, LedOn(LedBlinkLongMs)]
      ensures nwk == JoinedNetwork ==>
        ledTrigger == Immediate && isCurrentlySteering == old(isCurrentlySteering) &&
        effects == old(effects)
      ensures nwk != NoNetwork && nwk != JoinedNetwork ==>
        ledTrigger == old(ledTrigger) && isCurrentlySteering == old(isCurrentlySteering) &&
        effects == old(effects)
    {
      joinTrigger := Inactive;
      match nwk {
        case JoinedNetwork =>
          ledTrigger := Immediate;
        case NoNetwork =>
          isCurrentlySteering := true;
          effects := effects + [SteeringStart];
          effects := effects + [LedOn(LedBlinkLongMs)];
        case _ =>
      }
    }

    /** The pending commissioning-LED trigger fired with the stack in state `nwk`;
        `identifyTime` is what the Identify cluster's identify-time attribute
        reads. While identifying, blink the low byte of the identify time
        and look again in two seconds; when joined and not identifying, turn
        the LED off. */
    method OnLedTriggerFired(nwk: NetworkStatus, identifyTime: uint16)
      requires Valid() && ledTrigger != Inactive
      modifies this`ledTrigger, this`effects
      ensures Valid()
      ensures nwk == JoinedNetwork && identifyTime > 0 ==>
        ledTrigger == Delayed(IdentifyRearmMs) &&
        effects == old(effects) + [LedCounted(identifyTime as nat % 0x100, LedBlinkIdentifyMs)]
      ensures nwk == JoinedNetwork && identifyTime == 0 ==>
        ledTrigger == Inactive && effects == old(effects) + [LedOff(0)]
      ensures nwk != JoinedNetwork ==>
        ledTrigger == Inactive && effects == old(effects)
    {
      ledTrigger := Inactive;
      if nwk == JoinedNetwork {
        if identifyTime > 0 {
          effects := effects + [LedCounted(identifyTime as nat % 0x100, LedBlinkIdentifyMs)];
          ledTrigger := Delayed(IdentifyRearmMs);
        } else {
          effects := effects + [LedOff(0)];
        }
      }
    }

    /** `rz_network_conn_manager_init`: set up both triggers, reset the
        cycle, and read the node-data token. Valid credentials are
        remembered with their channel; without them a join is scheduled at
        once. */
    method Init(token: NodeDataToken)
      requires Valid()
      modifies this`joinAttempt, this`isCurrentlySteering, this`haveNetworkToken,
               this`currentChannel, this`ledTrigger, this`joinTrigger
      ensures Valid()
      ensures joinAttempt == 0 && !isCurrentlySteering && ledTrigger == Inactive
      ensures haveNetworkToken == IsValidToken(token)
      ensures IsValidToken(token) ==>
        currentChannel == token.radioFreqChannel as nat && joinTrigger == Inactive
      ensures !IsValidToken(token) ==>
        currentChannel == ChannelUnknown && joinTrigger == Immediate
    {
      ledTrigger := Inactive;
      joinTrigger := Inactive;
      ResetState();
      if IsValidToken(token) {
        haveNetworkToken := true;
        currentChannel := token.radioFreqChannel as nat;
      } else {
        haveNetworkToken := false;
        currentChannel := ChannelUnknown;
        joinTrigger := Immediate;
      }
    }

    /** `rz_network_conn_manager_leave`: forget the credentials and the
        channel and ask the stack to leave; the join cycle is untouched. */
    method Leave()
      requires Valid()
      modifies this`haveNetworkToken, this`currentChannel, this`effects
      ensures Valid()
      ensures !haveNetworkToken && currentChannel == ChannelUnknown
      ensures effects == old(effects) + [LeaveNetwork]
    {
      haveNetworkToken := false;
      currentChannel := ChannelUnknown;
      effects := effects + [LeaveNetwork];
    }

    /** `rz_network_conn_manager_indicate_network_status`: long blink while
        without network or parent, the success blink otherwise. */
    method IndicateNetworkStatus(nwk: NetworkStatus)
      requires Valid()
      modifies this`effects
      ensures Valid()
      ensures nwk == NoNetwork || nwk == JoinedNetworkNoParent ==>
        effects == old(effects) + [LedOn(LedBlinkLongMs)]
      ensures nwk != NoNetwork && nwk != JoinedNetworkNoParent ==>
        effects == old(effects) + [LedCounted(NetworkUpBlinkCount, LedBlinkShortMs)]
    {
      if nwk == NoNetwork || nwk == JoinedNetworkNoParent {
        effects := effects + [LedOn(LedBlinkLongMs)];
      } else {
        effects := effects + [LedCounted(NetworkUpBlinkCount, LedBlinkShortMs)];
      }
    }

    /** `rz_network_conn_manager_join`: when already joined just show the
        success blink; otherwise restart the join cycle, which always
        schedules an immediate first attempt. */
    method Join(nwk: NetworkStatus)
      requires Valid()
      modifies this`joinTrigger, this`joinAttempt, this`isCurrentlySteering, this`effects
      ensures Valid()
      ensures nwk == JoinedNetwork ==>
        joinAttempt == old(joinAttempt) && joinTrigger == old(joinTrigger) &&
        isCurrentlySteering == old(isCurrentlySteering) &&
        effects == old(effects) + [LedCounted(NetworkUpBlinkCount, LedBlinkShortMs)]
      ensures nwk != JoinedNetwork ==>
        joinAttempt == 1 && joinTrigger == Immediate && !isCurrentlySteering &&
        effects == old(effects)
    {
      if nwk == JoinedNetwork {
        effects := effects + [LedCounted(NetworkUpBlinkCount, LedBlinkShortMs)];
      } else {
        AttemptToJoin(true);
      }
    }

    /** `rejoinNetwork`: try the remembered channel first (only when it is
        one of channels 11 to 26), and scan all channels when that was
        skipped or did not succeed. `rejoinResult` is the stack's answer to a
        rejoin on a given mask. */
    method RejoinNetwork(rejoinResult: bv32 -> EmberStatus)
      requires Valid()
      modifies this`effects
      ensures Valid()
      ensures IsRejoinChannel(currentChannel) &&
              rejoinResult(ChannelMask(currentChannel)) == Success ==>
        effects == old(effects) + [Rejoin(ChannelMask(currentChannel))]
      ensures IsRejoinChannel(currentChannel) &&
              rejoinResult(ChannelMask(currentChannel)) != Success ==>
        effects == old(effects) + [Rejoin(ChannelMask(currentChannel)), Rejoin(AllChannelsMask)]
      ensures !IsRejoinChannel(currentChannel) ==>
        effects == old(effects) + [Rejoin(AllChannelsMask)]
    {
      var status := ErrFatal;
      if IsRejoinChannel(currentChannel) {
        var mask := ChannelMask(currentChannel);
        effects := effects + [Rejoin(mask)];
        status := rejoinResult(mask);
      }
      if status != Success {
        effects := effects + [Rejoin(AllChannelsMask)];
        status := rejoinResult(AllChannelsMask);
      }
    }
  }

  /** A device without credentials, in the shipped configuration: it steers
      at once, retries once immediately and once after five seconds, then
      gives up until a manual join restarts the cycle. */
  method FreshDeviceScenario()
  {
    DefaultConfigSchedule();
    var m := new ConnectionManager(DefaultConfig);
    m.Init(NodeDataToken(0, 0xFFFF, 0xFF));
    assert m.joinTrigger == Immediate && m.joinAttempt == 0;

    m.OnJoinTriggerFired(NoNetwork);
    assert m.isCurrentlySteering && m.effects == [SteeringStart, LedOn(LedBlinkLongMs)];
    m.OnSteeringComplete(ErrFatal);
    assert !m.isCurrentlySteering && m.joinAttempt == 1 && m.joinTrigger == Immediate;

    m.OnJoinTriggerFired(NoNetwork);
    m.OnSteeringComplete(ErrFatal);
    assert m.joinAttempt == 2 && m.joinTrigger == Delayed(5000);

    m.OnJoinTriggerFired(NoNetwork);
    m.OnSteeringComplete(ErrFatal);
    assert m.joinAttempt == 2 && m.joinTrigger == Inactive;

    m.Join(NoNetwork);
    assert m.joinAttempt == 1 && m.joinTrigger == Immediate;
  }

  /** A provisioned device remembering channel 15 whose rejoin there fails
      falls back to all channels. */
  method RememberedChannelScenario()
  {
    var m := new ConnectionManager(DefaultConfig);
    m.Init(NodeDataToken(0x1A2B, 0x0001, 15));
    assert m.haveNetworkToken && m.currentChannel == 15 && m.joinTrigger == Inactive;
    m.RejoinNetwork(mask => ErrFatal);
    assert m.effects == [Rejoin(ChannelMask(15)), Rejoin(AllChannelsMask)];
    assert ChannelMask(15) == 0x8000;
  }
}
