/** Register map of the LTR-559ALS-01: register addresses, identifiers and the
    bit-field encodings that the driver ORs together into register bytes. */
module Registers {

  /** A register address on the device (one byte). */
  type Reg = r: int | 0 <= r < 256

  /** Part number and revision identifier read back from REGISTER_PARTID. */
  const PART_ID: bv8 := 0x92
  const MANUFAC_ID: bv8 := 0x05

  // LED pulse period, bits 7:5 of REGISTER_PS_LED
  const LED_PULSE_PERIOD_30: bv8 := 0x00
  const LED_PULSE_PERIOD_40: bv8 := 0x01 << 5
  const LED_PULSE_PERIOD_50: bv8 := 0x02 << 5
  const LED_PULSE_PERIOD_60: bv8 := 0x03 << 5
  const LED_PULSE_PERIOD_70: bv8 := 0x04 << 5
  const LED_PULSE_PERIOD_80: bv8 := 0x05 << 5
  const LED_PULSE_PERIOD_90: bv8 := 0x06 << 5
  const LED_PULSE_PERIOD_100: bv8 := 0x07 << 5

  // LED duty cycle, bits 4:3 of REGISTER_PS_LED
  const DUTY_CYCLE_25: bv8 := 0x00
  const DUTY_CYCLE_50: bv8 := 0x01 << 3
  const DUTY_CYCLE_75: bv8 := 0x02 << 3
  const DUTY_CYCLE_100: bv8 := 0x03 << 3

  // LED current, bits 2:0 of REGISTER_PS_LED
  const CURRENT_MA_5: bv8 := 0x00
  const CURRENT_MA_10: bv8 := 0x01
  const CURRENT_MA_20: bv8 := 0x02
  const CURRENT_MA_50: bv8 := 0x03
  const CURRENT_MA_100: bv8 := 0x04

  // Proximity measurement rate, REGISTER_PS_MEAS_RATE
  const PS_MEAS_RATE_50: bv8 := 0x00
  const PS_MEAS_RATE_70: bv8 := 0x01
  const PS_MEAS_RATE_100: bv8 := 0x02
  const PS_MEAS_RATE_200: bv8 := 0x03
  const PS_MEAS_RATE_500: bv8 := 0x04
  const PS_MEAS_RATE_1000: bv8 := 0x05
  const PS_MEAS_RATE_2000: bv8 := 0x06
  const PS_MEAS_RATE_10: bv8 := 0x08

  // ALS control register bits and ALS gain codes
  const ENABLE_ALS: bv8 := 0x01
  const ALS_DATA_GAIN_1X: bv8 := 0x00
  const ALS_DATA_GAIN_2X: bv8 := 0x01
  const ALS_DATA_GAIN_4X: bv8 := 0x02
  const ALS_DATA_GAIN_8X: bv8 := 0x03
  const ALS_DATA_GAIN_48X: bv8 := 0x06
  const ALS_DATA_GAIN_96X: bv8 := 0x07

  // ALS integration time, as the driver encodes it (multiples of 4)
  const ALS_INTEGRAL_TIME_100: bv8 := 0x00
  const ALS_INTEGRAL_TIME_50: bv8 := 0x04
  const ALS_INTEGRAL_TIME_200: bv8 := 0x08
  const ALS_INTEGRAL_TIME_400: bv8 := 0x0C
  const ALS_INTEGRAL_TIME_150: bv8 := 0x10
  const ALS_INTEGRAL_TIME_250: bv8 := 0x14
  const ALS_INTEGRAL_TIME_300: bv8 := 0x18
  const ALS_INTEGRAL_TIME_350: bv8 := 0x1C

  // ALS measurement repeat rate
  const ALS_MEAS_RATE_50: bv8 := 0x00
  const ALS_MEAS_RATE_100: bv8 := 0x01
  const ALS_MEAS_RATE_200: bv8 := 0x02
  const ALS_MEAS_RATE_500: bv8 := 0x03
  const ALS_MEAS_RATE_1000: bv8 := 0x04
  const ALS_MEAS_RATE_2000: bv8 := 0x05

  // Proximity control register bits
  const ENABLE_PS: bv8 := 0x03
  const ENABLE_SATURATION: bv8 := 0x20

  /** Reset command bit written to REGISTER_CONTROL_ALS by the reset handshake. */
  const POWER_ON_RESET_CMD: bv8 := 0x02

  // Register addresses
  const REGISTER_ALS_DATA: Reg := 0x88
  const REGISTER_DATA_STATUS: Reg := 0x8C
  const REGISTER_PS_DATA: Reg := 0x8D
  const REGISTER_PARTID: Reg := 0x86
  const REGISTER_MANUFACID: Reg := 0x86
  const REGISTER_CONTROL_ALS: Reg := 0x80
  const REGISTER_CONTROL_PS: Reg := 0x81
  const REGISTER_PS_LED: Reg := 0x82
  const REGISTER_PS_N_PULSES: Reg := 0x83
  const REGISTER_PS_MEAS_RATE: Reg := 0x84
  const REGISTER_ALS_MEAS_RATE: Reg := 0x85
  const REGISTER_INTERRUPT: Reg := 0x8F

  /** The 7-bit bus address the device answers on unless configured otherwise. */
  function DefaultI2cAddress(): (a: nat)
    ensures a < 0x80
  {
    0x23
  }

  /** The part and revision identifier that `init` expects to read back. */
  function PartId(): (id: bv8)
    ensures id == PART_ID && id as int == 146
  {
    0x92
  }

  // ---------------------------------------------------------------------------
  // LED control register: the three fields and their composition

  const LED_PULSE_PERIOD_MASK: bv8 := 0xE0
  const DUTY_CYCLE_MASK: bv8 := 0x18
  const CURRENT_MASK: bv8 := 0x07

  const LED_PULSE_PERIODS: set<bv8> := {LED_PULSE_PERIOD_30, LED_PULSE_PERIOD_40, LED_PULSE_PERIOD_50,
                                        LED_PULSE_PERIOD_60, LED_PULSE_PERIOD_70, LED_PULSE_PERIOD_80,
                                        LED_PULSE_PERIOD_90, LED_PULSE_PERIOD_100}
  const DUTY_CYCLES: set<bv8> := {DUTY_CYCLE_25, DUTY_CYCLE_50, DUTY_CYCLE_75, DUTY_CYCLE_100}
  const LED_CURRENTS: set<bv8> := {CURRENT_MA_5, CURRENT_MA_10, CURRENT_MA_20, CURRENT_MA_50, CURRENT_MA_100}

  /** The byte written to REGISTER_PS_LED for a pulse period, a duty cycle and
      a current: each setting sits in its own field, where its mask finds it. */
  function LedControl(period: bv8, duty: bv8, current: bv8): (b: bv8)
    requires period in LED_PULSE_PERIODS && duty in DUTY_CYCLES && current in LED_CURRENTS
    ensures b & LED_PULSE_PERIOD_MASK == period
    ensures b & DUTY_CYCLE_MASK == duty
    ensures b & CURRENT_MASK == current
  {
    assert period & !LED_PULSE_PERIOD_MASK == 0;
    assert duty & !DUTY_CYCLE_MASK == 0;
    assert current & !CURRENT_MASK == 0;
    period | duty | current
  }

  /** Every pulse-period constant lies in bits 7:5, every duty-cycle constant in
      bits 4:3 and every current constant in bits 2:0; so the three fields never
      overlap and each one is recovered from the composed byte by its mask. */
  lemma LedFieldsRecoverable(period: bv8, duty: bv8, current: bv8)
    requires period in LED_PULSE_PERIODS && duty in DUTY_CYCLES && current in LED_CURRENTS
    ensures period & duty == 0 && period & current == 0 && duty & current == 0
    ensures LedControl(period, duty, current) as int < 256
    ensures LedControl(period, duty, current) & LED_PULSE_PERIOD_MASK == period
    ensures LedControl(period, duty, current) & DUTY_CYCLE_MASK == duty
    ensures LedControl(period, duty, current) & CURRENT_MASK == current
  {
    assert period & !LED_PULSE_PERIOD_MASK == 0;
    assert duty & !DUTY_CYCLE_MASK == 0;
    assert current & !CURRENT_MASK == 0;
  }

  /** Distinct LED settings give distinct register bytes. */
  lemma LedControlInjective(p1: bv8, d1: bv8, c1: bv8, p2: bv8, d2: bv8, c2: bv8)
    requires p1 in LED_PULSE_PERIODS && d1 in DUTY_CYCLES && c1 in LED_CURRENTS
    requires p2 in LED_PULSE_PERIODS && d2 in DUTY_CYCLES && c2 in LED_CURRENTS
    requires LedControl(p1, d1, c1) == LedControl(p2, d2, c2)
    ensures p1 == p2 && d1 == d2 && c1 == c2
  {
    LedFieldsRecoverable(p1, d1, c1);
    LedFieldsRecoverable(p2, d2, c2);
  }

  /** The integration-time constants are multiples of 4 and so share bit 2 with
      the measurement-rate constants: two different (integration time, rate)
      settings OR to the same byte, and the fields cannot be told apart. */
  lemma AlsMeasRateFieldsOverlap()
    ensures ALS_INTEGRAL_TIME_50 & ALS_MEAS_RATE_1000 != 0
    ensures ALS_INTEGRAL_TIME_50 | ALS_MEAS_RATE_50 == ALS_INTEGRAL_TIME_100 | ALS_MEAS_RATE_1000
    ensures ALS_INTEGRAL_TIME_50 | ALS_MEAS_RATE_2000 == ALS_INTEGRAL_TIME_100 | ALS_MEAS_RATE_2000
  {
  }
}
