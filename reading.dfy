/** The reading pipeline: one 7-byte data block turned into the reading that
    `readSensorData` resolves with. */
module Reading {
  import opened Wrappers
  import opened Registers
  import opened Conversion
  import opened LuxConversion

  /** What `readSensorData` reports.  `lux` is `None` where the driver's
      arithmetic yields NaN (a gain code without multiplier). */
  datatype SensorReading = SensorReading(lux: Option<real>, proximity: nat, proximitySaturated: bool)

  /** Decodes a data block and converts its channels into lux. */
  function ReadingOf(b: seq<bv8>): (r: SensorReading)
    requires |b| == BLOCK_LENGTH
    ensures r.proximity <= 2047
    ensures r.proximity == DecodeBlock(b).proximity && r.proximitySaturated == DecodeBlock(b).saturated
    ensures r.lux.Some? ==> r.lux.value >= 0.0
    ensures r.lux.None? <==>
              DecodeBlock(b).channel0 + DecodeBlock(b).channel1 > 0 && (b[4] as int / 16) % 8 in {2, 5}
  {
    var s := DecodeBlock(b);
    LuxNonNegative(s.channel0, s.channel1, s.gainCode);
    SensorReading(Lux(s.channel0, s.channel1, s.gainCode), s.proximity, s.saturated)
  }

  /** Channel 1 = 100, channel 0 = 200, gain code 0, proximity 5: ratio 33 selects
      coefficient set 0 and lux = (200 * 17743 + 100 * 11059) / 10000 = 465.45. */
  lemma ReadingExample()
    ensures ReadingOf([0x64, 0x00, 0xC8, 0x00, 0x00, 0x05, 0x00])
              == SensorReading(Some(465.45), 5, false)
  {
    var b: seq<bv8> := [0x64, 0x00, 0xC8, 0x00, 0x00, 0x05, 0x00];
    var s := DecodeBlock(b);
    assert s.channel1 == 100 && s.channel0 == 200 && s.gainCode == 0;
    LuxFormula(200, 100, 0);
    assert IntegerIndex(200, 100) == 0;
  }

  /** The gain table keys the multiplier 4 at code 3 and 8 at code 4, while the
      register constants name code 2 "4X" and code 3 "8X": a block reporting the
      constant ALS_DATA_GAIN_4X has no multiplier at all. */
  lemma AlsGainTableQuirk()
    ensures ALS_DATA_GAIN_4X as nat !in ALS_GAIN
    ensures ALS_GAIN[ALS_DATA_GAIN_8X as nat] == 4
    ensures Lux(1, 0, ALS_DATA_GAIN_4X as nat) == None
  {
  }
}
