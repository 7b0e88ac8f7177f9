/**
  The transmitter's dynamic power controller: one update step per tick that
  turns the latest telemetry into power-manager commands, with strictly
  ordered rules (overload, disabled mode, boost, missed telemetry, emergency
  LQ drop, SNR adjustment) and a fixed-point (x 2^16) moving average of the
  uplink link quality.

  The power manager itself is outside this model: a step emits the ordered
  list of commands it would issue (decPower, incPower, setPower to the
  configured level). The globals the step reads are inputs.
*/
module DynPower {
  import opened Ints

  /** Threshold constants of the controller. */
  const BOOST_LQ_THRESHOLD: int := 20
  const BOOST_LQ_MIN: int := 50
  const MOVING_AVG_K: int := 8
  const MIN_LQ_UP: int := 95
  /** 512 ms plus the longest packet interval (20 ms) plus 2 ms. */
  const TLM_MISSED_MS: int := 512 + 20 + 2
  /** RSSI at or above which the receiver front end is saturated. */
  const RSSI_OVERLOAD: int := -5
  /** RSSI at or below which a non-dynamic link goes back to the configured power. */
  const RSSI_RESTORE: int := -20
  /** The average LQ after Init: 100 in 16.16 fixed point. */
  const AVG_LQ_INIT: uint32 := 100 * 0x1_0000

  /** What the telemetry side last reported. */
  datatype TelemetryUpdate = NoUpdate | NewLinkStats | Missed

  /** A command to the power manager. */
  datatype PowerAction = Dec | Inc | SetToConfig

  /** The parts of the configuration the controller reads. */
  datatype Config = Config(power: int, dynamicPower: bool, boostChannel: uint8)

  /**
    The uplink link statistics, as the raw values of their fields; the
    controller converts them as its locals' declarations do (int8_t for the
    RSSIs and the SNR, uint32_t for the LQ).
  */
  datatype LinkStats = LinkStats(activeAntenna: int, rssi1: int, rssi2: int, lq: int, snr: int)

  /**
    Everything else one tick reads: the time, the time of the last telemetry
    packet, the armed and disconnected flags, the statistics, the level the
    power manager reports, the air rate's SNR up-threshold and CRSF_to_BIT of
    the boost channel.
  */
  datatype Tick = Tick(
    now: uint32,
    lastTlmMillis: uint32,
    armed: bool,
    disconnected: bool,
    stats: LinkStats,
    currPower: int,
    upThresholdSnr: int,
    boostChannelBit: int)

  /** The commands a step issues and the average it leaves. */
  datatype StepResult = StepResult(actions: seq<PowerAction>, avgLq: uint32)

  // ---------------------------------------------------------------------------
  // The pieces of a step

  /** The RSSI of the active antenna, as an int8_t. */
  function Rssi(stats: LinkStats): (r: int)
    ensures -128 <= r < 128
    ensures stats.activeAntenna == 0 && -128 <= stats.rssi1 < 128 ==> r == stats.rssi1
    ensures stats.activeAntenna != 0 && -128 <= stats.rssi2 < 128 ==> r == stats.rssi2
  {
    if stats.activeAntenna == 0 then ToInt8(stats.rssi1) else ToInt8(stats.rssi2)
  }

  /** The boost rule: disconnected while armed, or a configured boost channel reading 0. */
  predicate BoostActive(cfg: Config, tick: Tick)
  {
    (tick.disconnected && tick.armed) || (cfg.boostChannel != 0 && tick.boostChannelBit == 0)
  }

  /** How many incPower steps are left below the configured power, as a uint8_t. */
  function Headroom(cfgPower: int, currPower: int): (h: uint8)
    ensures 0 <= currPower <= cfgPower < 0x100 ==> h as int == cfgPower - currPower
    ensures 0 <= cfgPower < currPower < 0x100 ==> h as int == cfgPower - currPower + 0x100
  {
    Wrap8(cfgPower - Wrap8(currPower) as int)
  }

  /** Milliseconds since the last telemetry packet, by uint32_t subtraction. */
  function Elapsed(now: uint32, last: uint32): (d: uint32)
    ensures last <= now ==> d as int == now as int - last as int
    ensures now < last ==> d as int == now as int - last as int + TWO32
  {
    Wrap32(now as int - last as int)
  }

  /** The moving average update, in uint32_t arithmetic. */
  function AvgLqNext(avg: uint32, lq: uint32): (r: uint32)
    ensures r as int < TWO32 / MOVING_AVG_K
    ensures avg as int <= 255 * 0x1_0000 && lq as int <= 255 ==>
      r as int == (7 * avg as int + lq as int * 0x1_0000) / 8
  {
    var older, sample := Wrap32((MOVING_AVG_K - 1) * avg as int), Wrap32(lq as int * 0x1_0000);
    assert avg as int <= 255 * 0x1_0000 && lq as int <= 255 ==>
      older as int == 7 * avg as int && sample as int == lq as int * 0x1_0000;
    Wrap32(older as int + sample as int) / MOVING_AVG_K as uint32
  }

  /** avg >> 16 minus the current LQ, as an int32_t. */
  function LqDiff(avg: uint32, lq: uint32): (d: int)
    ensures -0x8000_0000 <= d < 0x8000_0000
    ensures (avg / 0x1_0000) as int - lq as int >= -0x8000_0000 ==> d == (avg / 0x1_0000) as int - lq as int
  {
    ToInt32(Wrap32((avg / 0x1_0000) as int - lq as int) as int)
  }

  /** The emergency rule: a sudden LQ drop relative to the average, or a critically low LQ. */
  function LqEmergency(avg: uint32, lq: uint32): (e: bool)
    ensures lq as int <= BOOST_LQ_MIN ==> e
    ensures lq as int <= (avg / 0x1_0000) as int + 0x8000_0000 ==>
      (e <==> lq as int <= BOOST_LQ_MIN || (avg / 0x1_0000) as int - lq as int >= BOOST_LQ_THRESHOLD)
  {
    LqDiff(avg, lq) >= BOOST_LQ_THRESHOLD || lq as int <= BOOST_LQ_MIN
  }

  /**
    The incPower commands of the SNR loop: one per pass while the int8_t SNR is
    at most the threshold and headroom is left, the SNR rising by 2 each pass.
  */
  function SnrIncs(snr: int, threshold: int, headroom: uint8): (r: seq<PowerAction>)
    requires -128 <= snr < 128
    ensures |r| <= headroom as int
    ensures forall i :: 0 <= i < |r| ==> r[i] == Inc
    ensures |r| > 0 <==> snr <= threshold && headroom > 0
    decreases headroom
  {
    if snr <= threshold && headroom > 0 then [Inc] + SnrIncs(ToInt8(snr + 2), threshold, headroom - 1)
    else []
  }

  /**
    The part of a step that runs on fresh link statistics with dynamic power
    on and no boost: the emergency rule, the average update and the SNR rules.
  */
  function LinkStatsStep(avg: uint32, lq: uint32, snr: int, threshDn: int, upThresholdSnr: int,
                         headroom: uint8): StepResult
    requires -128 <= snr < 128
  {
    var emergency := if LqEmergency(avg, lq) then [SetToConfig] else [];
    var avg' := AvgLqNext(avg, lq);
    var dec := if snr >= threshDn && avg' as int >= MIN_LQ_UP then [Dec] else [];
    StepResult(emergency + dec + SnrIncs(snr, upThresholdSnr, headroom), avg')
  }

  /** The overload rule's command: one decPower on fresh statistics with a saturating RSSI. */
  function Overload(newTlm: bool, rssi: int): seq<PowerAction>
  {
    if newTlm && rssi >= RSSI_OVERLOAD then [Dec] else []
  }

  /**
    One DynamicPower_Update step as a function of the telemetry flag, the
    average and the inputs; the reference the imperative Update is proved
    against.
  */
  function Step(updated: TelemetryUpdate, avg: uint32, cfg: Config, tick: Tick, threshDn: int): (r: StepResult)
    ensures r.avgLq != avg ==> updated == NewLinkStats && cfg.dynamicPower && !BoostActive(cfg, tick)
    ensures updated != NewLinkStats ==> |r.actions| <= 1
    ensures updated != NewLinkStats ==> Dec !in r.actions
  {
    var newTlm := updated == NewLinkStats;
    var rssi := Rssi(tick.stats);
    var overload := Overload(newTlm, rssi);
    if !cfg.dynamicPower then
      StepResult(overload + (if newTlm && rssi <= RSSI_RESTORE then [SetToConfig] else []), avg)
    else if BoostActive(cfg, tick) then
      StepResult(overload + [SetToConfig], avg)
    else
      var r := TelemetryStep(updated, avg, tick, threshDn, Headroom(cfg.power, tick.currPower));
      StepResult(overload + r.actions, r.avgLq)
  }

  /**
    The part of a step after the boost rule, with dynamic power on: the
    missed-telemetry rule, or on fresh statistics the rules of LinkStatsStep.
  */
  function TelemetryStep(updated: TelemetryUpdate, avg: uint32, tick: Tick, threshDn: int,
                         headroom: uint8): StepResult
  {
    if updated == Missed then
      var bump := tick.armed && Elapsed(tick.now, tick.lastTlmMillis) as int > TLM_MISSED_MS && headroom > 0;
      StepResult(if bump then [Inc] else [], avg)
    else if updated != NewLinkStats then
      StepResult([], avg)
    else
      LinkStatsStep(avg, Wrap32(tick.stats.lq), ToInt8(tick.stats.snr), threshDn, tick.upThresholdSnr, headroom)
  }

  /** The SNR increase loop of DynamicPower_Update, on its own. */
  method SnrLoop(snr0: int, threshold: int, headroom0: uint8) returns (incs: seq<PowerAction>)
    requires -128 <= snr0 < 128
    ensures incs == SnrIncs(snr0, threshold, headroom0)
  {
    incs := [];
    var snr, powerHeadroom := snr0, headroom0;
    while snr <= threshold && powerHeadroom > 0
      invariant -128 <= snr < 128
      invariant incs + SnrIncs(snr, threshold, powerHeadroom) == SnrIncs(snr0, threshold, headroom0)
      decreases powerHeadroom
    {
      incs := incs + [Inc];
      snr := ToInt8(snr + 2);
      powerHeadroom := powerHeadroom - 1;
    }
  }

  // ---------------------------------------------------------------------------
  // The controller's state and its three entry points

  /** The two statics of the controller. */
  class DynamicPower {
    var avgLq: uint32
    var updated: TelemetryUpdate

    constructor ()
      ensures avgLq == AVG_LQ_INIT && updated == NoUpdate
    {
      avgLq := AVG_LQ_INIT;
      updated := NoUpdate;
    }

    /** DynamicPower_Init: average back to 100, no update pending. */
    method Init()
      modifies this
      ensures avgLq == AVG_LQ_INIT && updated == NoUpdate
    {
      avgLq := AVG_LQ_INIT;
      updated := NoUpdate;
    }

    /** DynamicPower_TelemetryUpdate: records what the telemetry side saw. */
    method TelemetryUpdate(u: TelemetryUpdate)
      modifies this
      ensures updated == u && avgLq == old(avgLq)
    {
      updated := u;
    }

    /** DynamicPower_Update: one tick; the flag is consumed on every path. */
    method Update(cfg: Config, tick: Tick, threshDn: int) returns (actions: seq<PowerAction>)
      modifies this
      ensures updated == NoUpdate
      ensures StepResult(actions, avgLq) == Step(old(updated), old(avgLq), cfg, tick, threshDn)
    {
      var pending := updated;
      var newTlmAvail := pending == NewLinkStats;
      updated := NoUpdate;

      var rssi := Rssi(tick.stats);
      actions := [];
      if newTlmAvail && rssi >= RSSI_OVERLOAD {
        actions := actions + [Dec];
      }

      if !cfg.dynamicPower {
        if newTlmAvail && rssi <= RSSI_RESTORE {
          actions := actions + [SetToConfig];
        }
        return;
      }

      var boostChannel := cfg.boostChannel;
      var armed := tick.armed;
      if (tick.disconnected && armed) || (boostChannel != 0 && tick.boostChannelBit == 0) {
        actions := actions + [SetToConfig];
        return;
      }

      var powerHeadroom := Headroom(cfg.power, tick.currPower);
      var more := ApplyTelemetry(pending, tick, threshDn, powerHeadroom);
      actions := actions + more;
    }

    /** Lines of DynamicPower_Update from the headroom on: the missed-telemetry rule, then the link statistics. */
    method ApplyTelemetry(pending: TelemetryUpdate, tick: Tick, threshDn: int, powerHeadroom: uint8)
      returns (actions: seq<PowerAction>)
      modifies this
      ensures updated == old(updated)
      ensures StepResult(actions, avgLq) == TelemetryStep(pending, old(avgLq), tick, threshDn, powerHeadroom)
    {
      actions := [];
      if pending == Missed {
        if tick.armed && Elapsed(tick.now, tick.lastTlmMillis) as int > TLM_MISSED_MS && powerHeadroom > 0 {
          actions := actions + [Inc];
        }
        return;
      }

      if pending != NewLinkStats {
        return;
      }

      actions := ApplyLinkStats(Wrap32(tick.stats.lq), ToInt8(tick.stats.snr), threshDn,
                                tick.upThresholdSnr, powerHeadroom);
    }

    /** Lines of DynamicPower_Update from the emergency rule on: updates the average, returns the commands. */
    method ApplyLinkStats(lqCurrent: uint32, snr0: int, threshDn: int, upThresholdSnr: int, powerHeadroom: uint8)
      returns (actions: seq<PowerAction>)
      requires -128 <= snr0 < 128
      modifies this
      ensures updated == old(updated)
      ensures StepResult(actions, avgLq) ==
        LinkStatsStep(old(avgLq), lqCurrent, snr0, threshDn, upThresholdSnr, powerHeadroom)
    {
      actions := [];
      var lqAvg: uint32 := avgLq / 0x1_0000;
      var lqDiff := ToInt32(Wrap32(lqAvg as int - lqCurrent as int) as int);
      if lqDiff >= BOOST_LQ_THRESHOLD || lqCurrent as int <= BOOST_LQ_MIN {
        actions := actions + [SetToConfig];
      }
      avgLq := Wrap32(Wrap32((MOVING_AVG_K - 1) * avgLq as int) as int + Wrap32(lqCurrent as int * 0x1_0000) as int)
               / MOVING_AVG_K as uint32;
      var snr := snr0;
      if snr >= threshDn && avgLq as int >= MIN_LQ_UP {
        actions := actions + [Dec];
      }
      var incs := SnrLoop(snr, upThresholdSnr, powerHeadroom);
      actions := actions + incs;
    }
  }
}
