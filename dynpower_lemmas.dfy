/**
  What one dynamic power step guarantees: the order of its rules, which
  commands each path can issue, how many power increases it can ask for, and
  how the fixed-point LQ average behaves.
*/
module DynPowerLemmas {
  import opened Ints
  import opened DynPower

  function Min(a: int, b: int): int
  {
    if a <= b then a else b
  }

  /** How often a command occurs in a list of commands. */
  function Count(s: seq<PowerAction>, a: PowerAction): nat
  {
    multiset(s)[a]
  }

  /** A run of increases holds only increases. */
  lemma CountOfIncs(s: seq<PowerAction>)
    requires forall i :: 0 <= i < |s| ==> s[i] == Inc
    ensures Count(s, Inc) == |s| && Count(s, Dec) == 0 && Count(s, SetToConfig) == 0
  {
    if s != [] {
      CountOfIncs(s[1..]);
      assert s == [s[0]] + s[1..];
    }
  }

  // ---------------------------------------------------------------------------
  // The SNR increase loop

  /**
    Without int8_t wrap-around (a threshold of at most 125), the loop raises
    the power once per 2 dB the SNR is below the threshold, rounded up, capped
    by the headroom.
  */
  lemma {:induction false} SnrIncsClosedForm(snr: int, threshold: int, headroom: uint8)
    requires -128 <= snr < 128 && threshold <= 125
    ensures |SnrIncs(snr, threshold, headroom)| ==
      Min(headroom as int, if snr <= threshold then (threshold - snr) / 2 + 1 else 0)
    decreases headroom
  {
    if snr <= threshold && headroom > 0 {
      assert ToInt8(snr + 2) == snr + 2;
      SnrIncsClosedForm(snr + 2, threshold, headroom - 1);
    }
  }

  /**
    With a threshold of 127 every int8_t SNR is at most the threshold, even
    after wrapping round, so the loop always spends the whole headroom.
  */
  lemma {:induction false} SnrIncsSaturated(snr: int, threshold: int, headroom: uint8)
    requires -128 <= snr < 128 && threshold >= 127
    ensures |SnrIncs(snr, threshold, headroom)| == headroom as int
    decreases headroom
  {
    if headroom > 0 {
      SnrIncsSaturated(ToInt8(snr + 2), threshold, headroom - 1);
    }
  }

  /**
    A threshold of 126 lies between the two cases above: an even SNR reaches
    126 and wraps round from 128 to -128, so the loop spends the whole
    headroom; an odd SNR stops at 127 as the closed form says.
  */
  lemma {:induction false} SnrIncsAt126(snr: int, headroom: uint8)
    requires -128 <= snr < 128
    ensures |SnrIncs(snr, 126, headroom)| ==
      if snr % 2 == 0 then headroom as int else Min(headroom as int, (126 - snr) / 2 + 1)
    decreases headroom
  {
    if headroom > 0 && snr <= 126 {
      SnrIncsAt126(ToInt8(snr + 2), headroom - 1);
      if snr % 2 == 0 { assert ToInt8(snr + 2) % 2 == 0; } else { assert ToInt8(snr + 2) == snr + 2; }
    }
  }

  // ---------------------------------------------------------------------------
  // The moving average

  /**
    With the average at most 255 in fixed point and an LQ of at most 255, the
    update (the exact weighted mean, by its contract) lies between the old
    average and the new sample.
  */
  lemma AvgLqNextExact(avg: uint32, lq: uint32)
    requires avg as int <= 255 * 0x1_0000 && lq <= 255
    ensures Min(avg as int, lq as int * 0x1_0000) <= AvgLqNext(avg, lq) as int
    ensures AvgLqNext(avg, lq) as int <= avg as int || AvgLqNext(avg, lq) as int <= lq as int * 0x1_0000
    ensures AvgLqNext(avg, lq) as int <= if avg as int <= lq as int * 0x1_0000 then lq as int * 0x1_0000 else avg as int
  {
    var a, b := 7 * avg as int, lq as int * 0x1_0000;
    assert Wrap32(a) as int == a;
    assert Wrap32(b) as int == b;
    assert Wrap32(a + b) as int == a + b;
  }

  /**
    One update moves the average towards the sample t = lq << 16. From above
    it never overshoots and strictly decreases until it equals t; from below
    it never reaches t and rises only while it is at least 8 below.
  */
  lemma AvgLqNextApproach(avg: uint32, lq: uint32)
    requires avg as int <= 255 * 0x1_0000 && lq as int <= 255
    ensures var t, a := lq as int * 0x1_0000, AvgLqNext(avg, lq) as int;
      (avg as int >= t ==> t <= a <= avg as int && (avg as int > t ==> a < avg as int)) &&
      (avg as int < t ==> avg as int <= a < t && (avg as int <= t - 8 ==> a > avg as int))
  {
    AvgLqNextExact(avg, lq);
  }

  /**
    A constant sample v is not reached from below: an average 1 to 7 below
    v << 16 is a fixed point of the update, so after a dip the shifted
    average stays at v - 1 for as long as the sample stays v.
  */
  lemma AvgLqNextStallsBelow(v: uint32, k: int)
    requires 1 <= v as int <= 255 && 1 <= k <= 7
    ensures var avg := (v as int * 0x1_0000 - k) as uint32;
      AvgLqNext(avg, v) == avg && avg as int / 0x1_0000 == v as int - 1
  {
    AvgLqNextExact((v as int * 0x1_0000 - k) as uint32, v);
  }

  /** An average at most m in fixed point stays so after a sample of at most m. */
  lemma AvgLqNextBounded(avg: uint32, lq: uint32, m: int)
    requires 0 <= m <= 255 && avg as int <= m * 0x1_0000 && lq as int <= m
    ensures AvgLqNext(avg, lq) as int <= m * 0x1_0000
  {
    AvgLqNextExact(avg, lq);
  }

  /**
    The SNR decrease rule compares the 16.16 fixed-point average with 95
    without shifting it down, so its LQ condition holds for any non-zero LQ
    sample: even an LQ of 1 % lets the power go down.
  */
  lemma RawLqGateAcceptsAnyLink(avg: uint32, lq: uint32)
    requires avg as int <= 255 * 0x1_0000 && 1 <= lq <= 255
    ensures AvgLqNext(avg, lq) as int >= MIN_LQ_UP
  {
    AvgLqNextExact(avg, lq);
  }

  /** One sample of LQ 50 after Init: the shifted average is 93, the raw one passes 95. */
  lemma RawLqGateExample()
    ensures AvgLqNext(AVG_LQ_INIT, 50) as int / 0x1_0000 == 93
    ensures AvgLqNext(AVG_LQ_INIT, 50) as int >= MIN_LQ_UP
  {
    AvgLqNextExact(AVG_LQ_INIT, 50);
  }

  // ---------------------------------------------------------------------------
  // The rules of a step

  /**
    From the emergency rule on: the restore is issued exactly on an emergency
    and the decrease exactly when the SNR and the raw new average allow it,
    with at most headroom + 2 commands in all.
  */
  lemma LinkStatsCommands(avg: uint32, lq: uint32, snr: int, threshDn: int, upThresholdSnr: int,
                          headroom: uint8)
    requires -128 <= snr < 128
    ensures var r := LinkStatsStep(avg, lq, snr, threshDn, upThresholdSnr, headroom);
      r.avgLq == AvgLqNext(avg, lq) &&
      (SetToConfig in r.actions <==> LqEmergency(avg, lq)) &&
      (Dec in r.actions <==> snr >= threshDn && r.avgLq as int >= MIN_LQ_UP) &&
      |r.actions| <= 2 + headroom as int
  {
    var incs := SnrIncs(snr, upThresholdSnr, headroom);
    assert SetToConfig !in incs && Dec !in incs;
  }

  /** Fresh statistics with a saturating RSSI: the first command is a decrease, on every path. */
  lemma OverloadComesFirst(updated: TelemetryUpdate, avg: uint32, cfg: Config, tick: Tick, threshDn: int)
    requires updated == NewLinkStats && Rssi(tick.stats) >= RSSI_OVERLOAD
    ensures var r := Step(updated, avg, cfg, tick, threshDn);
      |r.actions| > 0 && r.actions[0] == Dec
  {
  }

  /**
    Dynamic power off: the average is untouched, power never goes up by a
    step, and the only command after the overload decrease is the restore of
    the configured power, issued exactly on fresh statistics with an RSSI of
    -20 or below.
  */
  lemma DisabledMode(updated: TelemetryUpdate, avg: uint32, cfg: Config, tick: Tick, threshDn: int)
    requires !cfg.dynamicPower
    ensures var r := Step(updated, avg, cfg, tick, threshDn);
      r.avgLq == avg && Count(r.actions, Inc) == 0 && |r.actions| <= 1 &&
      r.actions == Overload(updated == NewLinkStats, Rssi(tick.stats)) +
        (if updated == NewLinkStats && Rssi(tick.stats) <= RSSI_RESTORE then [SetToConfig] else [])
  {
  }

  /** Boost: the configured power is set, after the overload decrease if any, and the step ends. */
  lemma BoostEndsStep(updated: TelemetryUpdate, avg: uint32, cfg: Config, tick: Tick, threshDn: int)
    requires cfg.dynamicPower && BoostActive(cfg, tick)
    ensures var r := Step(updated, avg, cfg, tick, threshDn);
      r.avgLq == avg && r.actions == Overload(updated == NewLinkStats, Rssi(tick.stats)) + [SetToConfig] &&
      Count(r.actions, Inc) == 0
  {
  }

  /**
    Missed telemetry: at most one increase, issued exactly when armed, more
    than 534 ms (uint32_t difference) since the last telemetry and with
    headroom left; the average is untouched.
  */
  lemma MissedTelemetry(avg: uint32, cfg: Config, tick: Tick, threshDn: int)
    requires cfg.dynamicPower && !BoostActive(cfg, tick)
    ensures var r := Step(Missed, avg, cfg, tick, threshDn);
      r.avgLq == avg &&
      r.actions == if tick.armed && Elapsed(tick.now, tick.lastTlmMillis) as int > TLM_MISSED_MS &&
                      Headroom(cfg.power, tick.currPower) > 0
                   then [Inc] else []
  {
  }

  /** No telemetry report: nothing happens unless the boost rule fires. */
  lemma NoTelemetry(avg: uint32, cfg: Config, tick: Tick, threshDn: int)
    ensures var r := Step(NoUpdate, avg, cfg, tick, threshDn);
      r.avgLq == avg &&
      r.actions == if cfg.dynamicPower && BoostActive(cfg, tick) then [SetToConfig] else []
  {
  }

  /**
    Fresh statistics with dynamic power on and no boost: the commands are the
    overload decrease, then the emergency restore, then the SNR decrease, then
    the SNR increases, and the average takes the sample. The emergency rule
    does not end the step.
  */
  lemma FreshStatsOrder(avg: uint32, cfg: Config, tick: Tick, threshDn: int)
    requires cfg.dynamicPower && !BoostActive(cfg, tick)
    ensures var r := Step(NewLinkStats, avg, cfg, tick, threshDn);
      var lq := Wrap32(tick.stats.lq);
      var snr := ToInt8(tick.stats.snr);
      r.avgLq == AvgLqNext(avg, lq) &&
      r.actions ==
        Overload(true, Rssi(tick.stats)) +
        (if LqEmergency(avg, lq) then [SetToConfig] else []) +
        (if snr >= threshDn && AvgLqNext(avg, lq) as int >= MIN_LQ_UP then [Dec] else []) +
        SnrIncs(snr, tick.upThresholdSnr, Headroom(cfg.power, tick.currPower))
  {
  }

  /**
    Fresh statistics with dynamic power on and no boost: one decrease for the
    overload and one for the SNR rule, each exactly when its condition holds.
  */
  lemma FreshStatsDecreases(avg: uint32, cfg: Config, tick: Tick, threshDn: int)
    requires cfg.dynamicPower && !BoostActive(cfg, tick)
    ensures var r := Step(NewLinkStats, avg, cfg, tick, threshDn);
      var snr := ToInt8(tick.stats.snr);
      Count(r.actions, Dec) ==
        (if Rssi(tick.stats) >= RSSI_OVERLOAD then 1 else 0) +
        (if snr >= threshDn && r.avgLq as int >= MIN_LQ_UP then 1 else 0)
  {
    var lq := Wrap32(tick.stats.lq);
    var snr := ToInt8(tick.stats.snr);
    var incs := SnrIncs(snr, tick.upThresholdSnr, Headroom(cfg.power, tick.currPower));
    CountOfIncs(incs);
    FreshStatsOrder(avg, cfg, tick, threshDn);
  }

  /** On every path a step asks for at most as many increases as the uint8_t headroom. */
  lemma IncreasesWithinHeadroom(updated: TelemetryUpdate, avg: uint32, cfg: Config, tick: Tick, threshDn: int)
    ensures Count(Step(updated, avg, cfg, tick, threshDn).actions, Inc) <= Headroom(cfg.power, tick.currPower) as int
  {
    if cfg.dynamicPower && !BoostActive(cfg, tick) && updated == NewLinkStats {
      var snr := ToInt8(tick.stats.snr);
      var incs := SnrIncs(snr, tick.upThresholdSnr, Headroom(cfg.power, tick.currPower));
      CountOfIncs(incs);
      FreshStatsOrder(avg, cfg, tick, threshDn);
    }
  }

  /**
    The average stays at most m in fixed point, m at most 255, as long as
    every LQ sample is at most m; m = 100 is the bound Init starts from.
  */
  lemma StepKeepsAvgBounded(updated: TelemetryUpdate, avg: uint32, cfg: Config, tick: Tick, threshDn: int, m: int)
    requires 0 <= m <= 255 && avg as int <= m * 0x1_0000 && 0 <= tick.stats.lq <= m
    ensures Step(updated, avg, cfg, tick, threshDn).avgLq as int <= m * 0x1_0000
  {
    if cfg.dynamicPower && !BoostActive(cfg, tick) && updated == NewLinkStats {
      AvgLqNextBounded(avg, Wrap32(tick.stats.lq), m);
    }
  }
}
