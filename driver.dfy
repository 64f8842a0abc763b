/** The driver object: each method issues its bus transactions one at a time,
    stops at the first failure, and is proved to do exactly what the matching
    function of `Protocol` describes. */
module Driver {
  import opened Wrappers
  import opened Registers
  import opened Transport
  import opened Protocol
  import opened Conversion
  import opened Reading

  class Ltr559 {
    /** The bus, already opened and addressed to the device. */
    const bus: Bus

    constructor (bus: Bus)
      ensures this.bus == bus
    {
      this.bus := bus;
    }

    /** Power-on reset: write the reset command to REGISTER_CONTROL_ALS, then
        read it back until it reads 0, at most MAX_RETRIES times. */
    method Reset() returns (r: Outcome<DriverError>)
      requires bus.Valid()
      modifies bus, bus.regs
      ensures bus.Valid()
      ensures (r, bus.State()) == ResetSpec(old(bus.State()))
    {
      ghost var spec := ResetSpec(bus.State());
      var ok := bus.WriteByte(REGISTER_CONTROL_ALS, POWER_ON_RESET_CMD);
      if !ok {
        return Fail(TransportError);
      }
      var retryCount := 0;
      while true
        invariant bus.Valid() && 0 <= retryCount < MAX_RETRIES
        invariant Poll(bus.State(), retryCount) == spec
        decreases MAX_RETRIES - retryCount
      {
        var b := bus.ReadByte(REGISTER_CONTROL_ALS);
        if b.None? {
          return Fail(TransportError);
        }
        if b.value == 0 {
          return Pass;
        }
        retryCount := retryCount + 1;
        if retryCount >= MAX_RETRIES {
          return Fail(ResetFailed);
        }
      }
    }

    /** Reset, then the six default register writes, each issued only after
        the previous one succeeded. */
    method LoadDefaults() returns (r: Outcome<DriverError>)
      requires bus.Valid()
      modifies bus, bus.regs
      ensures bus.Valid()
      ensures (r, bus.State()) == LoadDefaultsSpec(old(bus.State()))
    {
      ghost var s0 := bus.State();
      r := Reset();
      if r.Fail? {
        assert LoadDefaultsSpec(s0) == (r, bus.State());
        return;
      }
      ghost var spec := WriteAll(bus.State(), DEFAULT_WRITES);
      assert spec == LoadDefaultsSpec(s0);
      assert DEFAULT_WRITES[0..] == DEFAULT_WRITES;
      ghost var before := bus.State();
      // LED: 30 ms pulse period, 100 % duty cycle, 50 mA
      var ok := bus.WriteByte(REGISTER_PS_LED, LedControl(LED_PULSE_PERIOD_30, DUTY_CYCLE_100, CURRENT_MA_50));
      WriteAllStep(before, DEFAULT_WRITES, 0);
      if !ok {
        return Fail(TransportError);
      }
      before := bus.State();
      assert spec == WriteAll(before, DEFAULT_WRITES[1..]);
      // Number of pulses 1
      ok := bus.WriteByte(REGISTER_PS_N_PULSES, 0x01);
      WriteAllStep(before, DEFAULT_WRITES, 1);
      if !ok {
        return Fail(TransportError);
      }
      before := bus.State();
      assert spec == WriteAll(before, DEFAULT_WRITES[2..]);
      // ALS active, gain 1X
      ok := bus.WriteByte(REGISTER_CONTROL_ALS, ENABLE_ALS);
      WriteAllStep(before, DEFAULT_WRITES, 2);
      if !ok {
        return Fail(TransportError);
      }
      before := bus.State();
      assert spec == WriteAll(before, DEFAULT_WRITES[3..]);
      // PS active, saturation indicator on
      ok := bus.WriteByte(REGISTER_CONTROL_PS, ENABLE_PS | ENABLE_SATURATION);
      WriteAllStep(before, DEFAULT_WRITES, 3);
      if !ok {
        return Fail(TransportError);
      }
      before := bus.State();
      assert spec == WriteAll(before, DEFAULT_WRITES[4..]);
      // PS measurement rate 100 ms
      ok := bus.WriteByte(REGISTER_PS_MEAS_RATE, PS_MEAS_RATE_100);
      WriteAllStep(before, DEFAULT_WRITES, 4);
      if !ok {
        return Fail(TransportError);
      }
      before := bus.State();
      assert spec == WriteAll(before, DEFAULT_WRITES[5..]);
      // ALS integration time and measurement rate, built from PS_MEAS_RATE_500
      ok := bus.WriteByte(REGISTER_ALS_MEAS_RATE, ALS_INTEGRAL_TIME_100 | PS_MEAS_RATE_500);
      WriteAllStep(before, DEFAULT_WRITES, 5);
      if !ok {
        return Fail(TransportError);
      }
      assert DEFAULT_WRITES[6..] == [];
      r := Pass;
    }

    /** Select and read the part ID register; on 0x92 load the defaults and
        report the ID. */
    method Init() returns (r: Result<bv8, DriverError>)
      requires bus.Valid()
      modifies bus, bus.regs
      ensures bus.Valid()
      ensures (r, bus.State()) == InitSpec(old(bus.State()))
    {
      var ok := bus.WriteByte(REGISTER_PARTID, 0);
      if !ok {
        return Err(TransportError);
      }
      var partId := bus.ReadByte(REGISTER_PARTID);
      if partId.None? {
        return Err(TransportError);
      }
      if partId.value != PartId() {
        return Err(UnexpectedPartId(partId.value));
      }
      var o := LoadDefaults();
      if o.Fail? {
        return Err(o.error);
      }
      return Ok(partId.value);
    }

    /** One block read of the 7 data bytes, decoded into a reading. */
    method ReadSensorData() returns (r: Result<SensorReading, DriverError>)
      requires bus.Valid()
      modifies bus
      ensures bus.Valid() && bus.script == old(bus.script)
      ensures bus.trace == old(bus.trace) + [BlockReadOp(REGISTER_ALS_DATA, BLOCK_LENGTH)]
      ensures r.Ok? <==> !old(bus.State()).NextFails()
      ensures r.Ok? ==> r.value == ReadingOf(bus.regs[REGISTER_ALS_DATA..REGISTER_ALS_DATA + BLOCK_LENGTH])
      ensures r.Err? ==> r.error == TransportError
    {
      var block := bus.ReadI2cBlock(REGISTER_ALS_DATA, BLOCK_LENGTH);
      if block.None? {
        return Err(TransportError);
      }
      return Ok(ReadingOf(block.value));
    }
  }
}
