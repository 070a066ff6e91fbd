/** What the shipped profile guarantees under automatic control: no alarms. */
module ShippedGuarantees {
  import opened RegisterMaps
  import opened WetWell
  import opened WetWellRuns
  import opened LevelChanges
  import opened ShippedProfile
  import opened Envelopes

  // ----- No alarms -----

  const NORMAL: Envelope := Envelope(5100, 5100, 1.0)

  lemma ShippedReset()
    ensures var s := Reset(Shipped());
      && s.level == 4700.0 && !s.pumpFault
      && s.controls.controlMode == 1 && s.controls.levelSetpoint == 5100 && s.controls.pumpSpeed == 6800
      && s.pump == Actuator(false, false, 0.0)
  {
    ShippedEntries();
    hide ShippedRegisters, RegisterMap.Complete, InitialReadings;
  }

  lemma ShippedStartsInBand()
    ensures ValidConfig(Shipped()) && InBand(Shipped(), NORMAL, Reset(Shipped()))
  {
    ShippedConfigValid();
    ResetSound(Shipped());
    ShippedReset();
    hide ShippedRegisters, RegisterMap.Complete, Sound, ValidConfig, Reset;
  }

  /** The envelope at the shipped setpoint stays clear of both alarm limits. */
  lemma ShippedClearance()
    ensures (NORMAL.b + Shipped().hysteresis) as real + Rise(Shipped(), Shipped().actuatorDelay + NORMAL.dt)
      <= Shipped().DefaultOf(HighAlarmLimit) as real - 0.5
    ensures Shipped().DefaultOf(LowAlarmLimit) as real + 0.5
      <= (NORMAL.a - Shipped().hysteresis) as real - Fall(Shipped(), Shipped().actuatorDelay + NORMAL.dt)
  {
    ShippedEntries();
    hide ShippedRegisters, RegisterMap.Complete;
  }

  /**
   * The shipped profile at its setpoint of 51%, ticked once a second or faster and with speeds that
   * keep up with the inlet, never raises an alarm, whatever else is written.
   */
  lemma ShippedNeverAlarms(ops: seq<Op>)
    requires forall op :: op in ops ==> Disciplined(Shipped(), NORMAL, op)
    ensures var s := Run(Shipped(), Reset(Shipped()), ops);
      !s.high.active && !s.low.active
  {
    hide *;
    ShippedStartsInBand();
    ShippedClearance();
    assert NORMAL.dt > 0.0 by { NormalTick(); }
    NoAlarms(Shipped(), NORMAL, Reset(Shipped()), ops);
  }

  lemma NormalTick()
    ensures NORMAL.dt > 0.0
  {
  }
}
