/** The device protocol of the driver as functions of the bus state: the reset
    handshake, the default configuration chain and the identity check of
    `init`.  The imperative methods of `Driver.Ltr559` are proved to behave
    exactly as these functions say; the lemmas here state what that behaviour
    guarantees. */
module Protocol {
  import opened Wrappers
  import opened Registers
  import opened Transport

  datatype DriverError =
    | TransportError              // the bus reported an error
    | UnexpectedPartId(id: bv8)   // `init` read another part and revision ID
    | ResetFailed                 // the reset bit did not clear within MAX_RETRIES reads

  /** Number of reads of REGISTER_CONTROL_ALS the reset handshake allows. */
  const MAX_RETRIES := 3

  // ---------------------------------------------------------------------------
  // Reset handshake

  /** Writes the reset command, then polls REGISTER_CONTROL_ALS. */
  function ResetSpec(s: BusState): (r: (Outcome<DriverError>, BusState))
    requires s.Valid()
    ensures r.1.Valid() && r.1.faults == s.faults
    ensures |s.trace| < |r.1.trace| <= |s.trace| + 1 + MAX_RETRIES
    ensures r.0.Pass? ==> r.1.regs == s.regs[REGISTER_CONTROL_ALS := POWER_ON_RESET_CMD]
    ensures r.0.Fail? ==> r.0.error == TransportError || r.0.error == ResetFailed
  {
    var (ok, s1) := Write(s, REGISTER_CONTROL_ALS, POWER_ON_RESET_CMD);
    if !ok then (Fail(TransportError), s1) else Poll(s1, 0)
  }

  /** One poll of the reset bit after `retryCount` nonzero reads. */
  function Poll(s: BusState, retryCount: nat): (r: (Outcome<DriverError>, BusState))
    requires s.Valid() && retryCount < MAX_RETRIES
    decreases MAX_RETRIES - retryCount
    ensures r.1.Valid() && r.1.regs == s.regs && r.1.faults == s.faults
    ensures |s.trace| < |r.1.trace| <= |s.trace| + MAX_RETRIES - retryCount
    ensures r.0.Fail? ==> r.0.error == TransportError || r.0.error == ResetFailed
  {
    var (b, s1) := Read(s, REGISTER_CONTROL_ALS);
    if b.None? then (Fail(TransportError), s1)
    else if b.value == 0 then (Pass, s1)
    else if retryCount + 1 >= MAX_RETRIES then (Fail(ResetFailed), s1)
    else Poll(s1, retryCount + 1)
  }

  /** The bus state right after a reset command that the bus accepted. */
  function Commanded(s: BusState): BusState
    requires s.Valid()
  {
    Write(s, REGISTER_CONTROL_ALS, POWER_ON_RESET_CMD).1
  }

  /** What the `j`-th read of REGISTER_CONTROL_ALS from state `s` gets, given
      that the reads before it succeeded: `None` for a transport error, else the
      scripted reply or the stored byte. */
  function PollAnswer(s: BusState, j: nat): Option<bv8>
    requires s.Valid()
  {
    if !s.Acks(j) then None
    else if j < |s.script| then Some(s.script[j])
    else Some(s.regs[REGISTER_CONTROL_ALS])
  }

  function Repeat(op: Op, n: nat): (ops: seq<Op>)
    ensures |ops| == n && forall i :: 0 <= i < n ==> ops[i] == op
  {
    seq(n, _ => op)
  }

  /** A successful read of REGISTER_CONTROL_ALS moves every later answer one
      place forward. */
  lemma PollAnswerShift(s: BusState, j: nat)
    requires s.Valid() && Read(s, REGISTER_CONTROL_ALS).0.Some?
    ensures Read(s, REGISTER_CONTROL_ALS).0 == PollAnswer(s, 0)
    ensures PollAnswer(Read(s, REGISTER_CONTROL_ALS).1, j) == PollAnswer(s, j + 1)
  {
  }

  /** The polling loop issues between one and `MAX_RETRIES - retryCount` reads
      of REGISTER_CONTROL_ALS and nothing else; every read before the last got
      a nonzero byte; the last read decides the outcome. */
  lemma PollShape(s: BusState, retryCount: nat)
    requires s.Valid() && retryCount < MAX_RETRIES
    ensures var (o, s') := Poll(s, retryCount);
            var n := |s'.trace| - |s.trace|;
            && 1 <= n <= MAX_RETRIES - retryCount
            && s'.trace == s.trace + Repeat(ReadOp(REGISTER_CONTROL_ALS), n)
            && s'.regs == s.regs && s'.faults == s.faults
            && (forall j :: 0 <= j < n - 1 ==> PollAnswer(s, j).Some? && PollAnswer(s, j).value != 0)
            && (o == Pass <==> PollAnswer(s, n - 1) == Some(0))
            && (o == Fail(TransportError) <==> PollAnswer(s, n - 1).None?)
            && (o == Fail(ResetFailed) <==> PollAnswer(s, n - 1).Some? && PollAnswer(s, n - 1).value != 0)
            && (o == Fail(ResetFailed) ==> n == MAX_RETRIES - retryCount)
  {
    PollTrace(s, retryCount);
    PollOutcome(s, retryCount);
  }

  /** The operations the polling loop issues: only reads of
      REGISTER_CONTROL_ALS, at least one and at most the retries left. */
  lemma {:induction false} PollTrace(s: BusState, retryCount: nat)
    requires s.Valid() && retryCount < MAX_RETRIES
    decreases MAX_RETRIES - retryCount
    ensures var (o, s') := Poll(s, retryCount);
            var n := |s'.trace| - |s.trace|;
            && 1 <= n <= MAX_RETRIES - retryCount
            && s'.trace == s.trace + Repeat(ReadOp(REGISTER_CONTROL_ALS), n)
            && s'.regs == s.regs && s'.faults == s.faults
            && (o == Fail(ResetFailed) ==> n == MAX_RETRIES - retryCount)
  {
    var (b, s1) := Read(s, REGISTER_CONTROL_ALS);
    if b.Some? && b.value != 0 && retryCount + 1 < MAX_RETRIES {
      PollTrace(s1, retryCount + 1);
      var s' := Poll(s1, retryCount + 1).1;
      var n := |s'.trace| - |s.trace|;
      assert s'.trace == s1.trace + Repeat(ReadOp(REGISTER_CONTROL_ALS), n - 1);
      assert [ReadOp(REGISTER_CONTROL_ALS)] + Repeat(ReadOp(REGISTER_CONTROL_ALS), n - 1)
          == Repeat(ReadOp(REGISTER_CONTROL_ALS), n);
    }
  }

  /** The answers the polling loop saw: nonzero bytes before the last read,
      and the last one decides the outcome. */
  lemma {:induction false} PollOutcome(s: BusState, retryCount: nat)
    requires s.Valid() && retryCount < MAX_RETRIES
    decreases MAX_RETRIES - retryCount
    ensures var (o, s') := Poll(s, retryCount);
            var n := |s'.trace| - |s.trace|;
            && (forall j :: 0 <= j < n - 1 ==> PollAnswer(s, j).Some? && PollAnswer(s, j).value != 0)
            && (o == Pass <==> PollAnswer(s, n - 1) == Some(0))
            && (o == Fail(TransportError) <==> PollAnswer(s, n - 1).None?)
            && (o == Fail(ResetFailed) <==> PollAnswer(s, n - 1).Some? && PollAnswer(s, n - 1).value != 0)
  {
    var (b, s1) := Read(s, REGISTER_CONTROL_ALS);
    if b.Some? && b.value != 0 && retryCount + 1 < MAX_RETRIES {
      PollOutcome(s1, retryCount + 1);
      PollTrace(s1, retryCount + 1);
      var s' := Poll(s1, retryCount + 1).1;
      var n := |s'.trace| - |s.trace|;
      assert |s1.trace| == |s.trace| + 1;
      forall j | 0 <= j < n ensures PollAnswer(s1, j) == PollAnswer(s, j + 1) {
        PollAnswerShift(s, j);
      }
      forall j | 0 <= j < n - 1 ensures PollAnswer(s, j).Some? && PollAnswer(s, j).value != 0 {
        if j > 0 {
          assert PollAnswer(s, j) == PollAnswer(s1, j - 1);
        } else {
          PollAnswerShift(s, 0);
        }
      }
    } else {
      PollAnswerShift0(s);
    }
  }

  /** The first poll answer is what the first read returns. */
  lemma PollAnswerShift0(s: BusState)
    requires s.Valid()
    ensures Read(s, REGISTER_CONTROL_ALS).0 == PollAnswer(s, 0)
  {
  }

  /** The handshake issues exactly one write, (0x80, 0x02), then at most
      MAX_RETRIES reads of 0x80; no reads at all when the write fails. */
  lemma ResetTrace(s: BusState)
    requires s.Valid()
    ensures var s' := ResetSpec(s).1;
            var n := |s'.trace| - |s.trace| - 1;
            && 0 <= n <= MAX_RETRIES
            && s'.trace == s.trace + [WriteOp(REGISTER_CONTROL_ALS, POWER_ON_RESET_CMD)]
                                   + Repeat(ReadOp(REGISTER_CONTROL_ALS), n)
            && (n == 0 <==> s.NextFails())
  {
    if !s.NextFails() {
      PollShape(Commanded(s), 0);
    }
  }

  /** The handshake succeeds exactly when the reset command is accepted and
      one of the first MAX_RETRIES reads of 0x80 returns 0, with no transport
      error before it. */
  lemma ResetSucceedsIff(s: BusState)
    requires s.Valid()
    ensures ResetSpec(s).0 == Pass <==>
              && !s.NextFails()
              && exists k :: 0 <= k < MAX_RETRIES && PollAnswer(Commanded(s), k) == Some(0)
                             && forall j :: 0 <= j < k ==> PollAnswer(Commanded(s), j).Some?
  {
    if !s.NextFails() {
      var c := Commanded(s);
      PollShape(c, 0);
      var (o, s') := Poll(c, 0);
      var n := |s'.trace| - |c.trace|;
      if o == Pass {
        assert PollAnswer(c, n - 1) == Some(0);
      }
      if exists k :: 0 <= k < MAX_RETRIES && PollAnswer(c, k) == Some(0)
                     && forall j :: 0 <= j < k ==> PollAnswer(c, j).Some? {
        var k :| 0 <= k < MAX_RETRIES && PollAnswer(c, k) == Some(0)
                 && forall j :: 0 <= j < k ==> PollAnswer(c, j).Some?;
        assert n - 1 <= k;
        assert PollAnswer(c, n - 1).Some?;
        assert PollAnswer(c, n - 1) == Some(0);
      }
    }
  }

  /** The handshake times out exactly when the reset command is accepted and
      MAX_RETRIES reads of 0x80 succeed, each returning a nonzero byte; it then
      has issued exactly MAX_RETRIES reads. */
  lemma ResetTimeoutIff(s: BusState)
    requires s.Valid()
    ensures ResetSpec(s).0 == Fail(ResetFailed) <==>
              && !s.NextFails()
              && forall j :: 0 <= j < MAX_RETRIES ==>
                   PollAnswer(Commanded(s), j).Some? && PollAnswer(Commanded(s), j).value != 0
    ensures ResetSpec(s).0 == Fail(ResetFailed) ==>
              |ResetSpec(s).1.trace| == |s.trace| + 1 + MAX_RETRIES
  {
    if !s.NextFails() {
      var c := Commanded(s);
      PollShape(c, 0);
      var (o, s') := Poll(c, 0);
      var n := |s'.trace| - |c.trace|;
      if forall j :: 0 <= j < MAX_RETRIES ==> PollAnswer(c, j).Some? && PollAnswer(c, j).value != 0 {
        assert PollAnswer(c, n - 1).Some? && PollAnswer(c, n - 1).value != 0;
      }
    }
  }

  /** A transport error ends the handshake at once: the failing operation is
      the last one issued, and every operation before it succeeded. */
  lemma ResetTransportErrorStops(s: BusState)
    requires s.Valid()
    ensures var (o, s') := ResetSpec(s);
            && (o == Fail(TransportError) <==> |s'.trace| - 1 in s.faults)
            && (forall i :: |s.trace| <= i < |s'.trace| - 1 ==> i !in s.faults)
            && (o.Pass? || o == Fail(TransportError) || o == Fail(ResetFailed))
  {
    if !s.NextFails() {
      var c := Commanded(s);
      PollShape(c, 0);
      var (o, s') := Poll(c, 0);
      var n := |s'.trace| - |c.trace|;
      forall i | |s.trace| < i < |s'.trace| - 1 ensures i !in s.faults {
        assert PollAnswer(c, i - |c.trace|).Some?;
      }
      assert PollAnswer(c, n - 1).None? <==> |s'.trace| - 1 in s.faults;
    }
  }

  /** A device whose reset bit reads 1 once and then 0 completes the handshake
      after exactly two reads. */
  lemma ResetClearsOnSecondPoll(s: BusState)
    requires s.Valid() && s.faults == {} && s.script == [1, 0]
    ensures ResetSpec(s).0 == Pass
    ensures ResetSpec(s).1.trace == s.trace + [WriteOp(REGISTER_CONTROL_ALS, POWER_ON_RESET_CMD),
                                               ReadOp(REGISTER_CONTROL_ALS), ReadOp(REGISTER_CONTROL_ALS)]
  {
  }

  /** Without scripted replies the store keeps the command byte 0x02 in
      register 0x80, so all three polls read it and the handshake times out. */
  lemma ResetTimesOutWhenBitStaysSet(s: BusState)
    requires s.Valid() && s.faults == {} && s.script == []
    ensures ResetSpec(s).0 == Fail(ResetFailed)
    ensures |ResetSpec(s).1.trace| == |s.trace| + 1 + MAX_RETRIES
  {
    ResetTimeoutIff(s);
  }

  // ---------------------------------------------------------------------------
  // Default configuration chain

  /** The six (register, byte) writes of `loadDefaults`, in order. */
  const DEFAULT_WRITES: seq<(Reg, bv8)> := [
    (REGISTER_PS_LED, LedControl(LED_PULSE_PERIOD_30, DUTY_CYCLE_100, CURRENT_MA_50)),
    (REGISTER_PS_N_PULSES, 0x01),
    (REGISTER_CONTROL_ALS, ENABLE_ALS),
    (REGISTER_CONTROL_PS, ENABLE_PS | ENABLE_SATURATION),
    (REGISTER_PS_MEAS_RATE, PS_MEAS_RATE_100),
    (REGISTER_ALS_MEAS_RATE, ALS_INTEGRAL_TIME_100 | PS_MEAS_RATE_500)]

  /** The configuration bytes as the device receives them. */
  lemma DefaultWritesValues()
    ensures DEFAULT_WRITES == [(0x82, 0x1B), (0x83, 0x01), (0x80, 0x01), (0x81, 0x23), (0x84, 0x02), (0x85, 0x04)]
  {
  }

  /** The LED byte is 30 ms pulse period, 100 % duty cycle and 50 mA; the byte
      for REGISTER_ALS_MEAS_RATE is built from the proximity constant
      PS_MEAS_RATE_500, and is the byte the ALS constants call an integration
      time of 100 ms with a measurement rate of 1000 ms, not 500 ms. */
  lemma DefaultWritesDecode()
    ensures DEFAULT_WRITES[0].1 & LED_PULSE_PERIOD_MASK == LED_PULSE_PERIOD_30
    ensures DEFAULT_WRITES[0].1 & DUTY_CYCLE_MASK == DUTY_CYCLE_100
    ensures DEFAULT_WRITES[0].1 & CURRENT_MASK == CURRENT_MA_50
    ensures DEFAULT_WRITES[5].1 == ALS_INTEGRAL_TIME_100 | ALS_MEAS_RATE_1000
    ensures DEFAULT_WRITES[5].1 != ALS_INTEGRAL_TIME_100 | ALS_MEAS_RATE_500
  {
    LedFieldsRecoverable(LED_PULSE_PERIOD_30, DUTY_CYCLE_100, CURRENT_MA_50);
  }

  function WriteOps(ws: seq<(Reg, bv8)>): (ops: seq<Op>)
    ensures |ops| == |ws| && forall i :: 0 <= i < |ws| ==> ops[i] == WriteOp(ws[i].0, ws[i].1)
  {
    seq(|ws|, i requires 0 <= i < |ws| => WriteOp(ws[i].0, ws[i].1))
  }

  /** The first `n` writes of `ws` are the first write and then the next
      `n - 1` writes. */
  lemma WriteOpsCons(ws: seq<(Reg, bv8)>, n: nat)
    requires 1 <= n <= |ws|
    ensures WriteOps(ws[..n]) == [WriteOp(ws[0].0, ws[0].1)] + WriteOps(ws[1..][..n - 1])
  {
    assert ws[1..][..n - 1] == ws[..n][1..];
  }

  /** The register store after the writes `ws` have been applied in order. */
  function Apply(regs: seq<bv8>, ws: seq<(Reg, bv8)>): (r: seq<bv8>)
    requires |regs| == REGISTER_COUNT
    ensures |r| == REGISTER_COUNT
    decreases |ws|
  {
    if ws == [] then regs else Apply(regs[ws[0].0 := ws[0].1], ws[1..])
  }

  /** Issues the writes one after another, each only after the previous one
      succeeded. */
  function WriteAll(s: BusState, ws: seq<(Reg, bv8)>): (r: (Outcome<DriverError>, BusState))
    requires s.Valid()
    decreases |ws|
    ensures r.1.Valid() && r.1.script == s.script && r.1.faults == s.faults
    ensures |s.trace| <= |r.1.trace| <= |s.trace| + |ws|
    ensures r.0.Pass? ==> |r.1.trace| == |s.trace| + |ws|
    ensures r.0.Fail? ==> r.0.error == TransportError && |r.1.trace| > |s.trace|
  {
    if ws == [] then (Pass, s)
    else
      var (ok, s1) := Write(s, ws[0].0, ws[0].1);
      if !ok then (Fail(TransportError), s1) else WriteAll(s1, ws[1..])
  }

  /** Running the chain from its `k`-th write issues that write first. */
  lemma WriteAllStep(s: BusState, ws: seq<(Reg, bv8)>, k: nat)
    requires s.Valid() && k < |ws|
    ensures WriteAll(s, ws[k..])
              == var (ok, s1) := Write(s, ws[k].0, ws[k].1);
                 if !ok then (Fail(TransportError), s1) else WriteAll(s1, ws[k + 1..])
  {
    assert ws[k..][0] == ws[k] && ws[k..][1..] == ws[k + 1..];
  }

  /** The chain issues a prefix of `ws`, in order, and nothing else; it
      issues all of `ws` when it completes, and at least one write when it
      fails. */
  lemma {:induction false} WriteAllTrace(s: BusState, ws: seq<(Reg, bv8)>)
    requires s.Valid()
    decreases |ws|
    ensures var (o, s') := WriteAll(s, ws);
            var n := |s'.trace| - |s.trace|;
            && 0 <= n <= |ws|
            && s'.trace == s.trace + WriteOps(ws[..n])
            && s'.script == s.script && s'.faults == s.faults
            && (o.Pass? ==> n == |ws|)
            && (o.Fail? ==> o.error == TransportError && n >= 1)
  {
    if ws != [] {
      var (ok, s1) := Write(s, ws[0].0, ws[0].1);
      if ok {
        WriteAllTrace(s1, ws[1..]);
        var s' := WriteAll(s1, ws[1..]).1;
        var n := |s'.trace| - |s.trace|;
        assert s1.trace == s.trace + [WriteOp(ws[0].0, ws[0].1)];
        assert s'.trace == s1.trace + WriteOps(ws[1..][..n - 1]);
        WriteOpsCons(ws, n);
      } else {
        assert WriteOps(ws[..1]) == [WriteOp(ws[0].0, ws[0].1)];
      }
    }
  }

  /** The chain completes exactly when none of its writes fails; when it fails,
      the last write it issued is the first one that failed. */
  lemma {:induction false} WriteAllStopsAtFirstFailure(s: BusState, ws: seq<(Reg, bv8)>)
    requires s.Valid()
    decreases |ws|
    ensures var (o, s') := WriteAll(s, ws);
            var n := |s'.trace| - |s.trace|;
            && (o.Pass? <==> forall i :: 0 <= i < |ws| ==> s.Acks(i))
            && (o.Fail? ==> n >= 1 && !s.Acks(n - 1) && forall i :: 0 <= i < n - 1 ==> s.Acks(i))
  {
    if ws != [] {
      var (ok, s1) := Write(s, ws[0].0, ws[0].1);
      if ok {
        WriteAllStopsAtFirstFailure(s1, ws[1..]);
        var o := WriteAll(s1, ws[1..]).0;
        forall i: nat | 0 < i ensures s.Acks(i) == s1.Acks(i - 1) {
        }
        if o.Fail? {
          var i :| 0 <= i < |ws| - 1 && !s1.Acks(i);
          assert !s.Acks(i + 1);
        }
      } else {
        assert !s.Acks(0);
      }
    }
  }

  /** A completed chain leaves the store with all its writes applied in order. */
  lemma {:induction false} WriteAllStore(s: BusState, ws: seq<(Reg, bv8)>)
    requires s.Valid()
    decreases |ws|
    ensures WriteAll(s, ws).0.Pass? ==> WriteAll(s, ws).1.regs == Apply(s.regs, ws)
  {
    if ws != [] {
      var (ok, s1) := Write(s, ws[0].0, ws[0].1);
      if ok {
        WriteAllStore(s1, ws[1..]);
      }
    }
  }

  /** The six default writes leave these bytes in 0x80..0x85 and touch no
      other register. */
  lemma DefaultStoreContents(regs: seq<bv8>)
    requires |regs| == REGISTER_COUNT
    ensures var r := Apply(regs, DEFAULT_WRITES);
            && r[0x80] == 0x01 && r[0x81] == 0x23 && r[0x82] == 0x1B
            && r[0x83] == 0x01 && r[0x84] == 0x02 && r[0x85] == 0x04
            && forall i :: 0 <= i < REGISTER_COUNT && !(0x80 <= i <= 0x85) ==> r[i] == regs[i]
  {
    DefaultWritesValues();
    var r1 := regs[0x82 := 0x1B];
    var r2 := r1[0x83 := 0x01];
    var r3 := r2[0x80 := 0x01];
    var r4 := r3[0x81 := 0x23];
    var r5 := r4[0x84 := 0x02];
    var r6 := r5[0x85 := 0x04];
    assert Apply(regs, DEFAULT_WRITES) == Apply(r1, DEFAULT_WRITES[1..]);
    assert Apply(r1, DEFAULT_WRITES[1..]) == Apply(r2, DEFAULT_WRITES[2..]);
    assert Apply(r2, DEFAULT_WRITES[2..]) == Apply(r3, DEFAULT_WRITES[3..]);
    assert Apply(r3, DEFAULT_WRITES[3..]) == Apply(r4, DEFAULT_WRITES[4..]);
    assert Apply(r4, DEFAULT_WRITES[4..]) == Apply(r5, DEFAULT_WRITES[5..]);
    assert Apply(r5, DEFAULT_WRITES[5..]) == Apply(r6, DEFAULT_WRITES[6..]);
    assert DEFAULT_WRITES[6..] == [];
  }

  /** `loadDefaults`: the reset handshake, then the six default writes. */
  function LoadDefaultsSpec(s: BusState): (r: (Outcome<DriverError>, BusState))
    requires s.Valid()
    ensures r.1.Valid() && r.1.faults == s.faults
    ensures |s.trace| < |r.1.trace| <= |s.trace| + 1 + MAX_RETRIES + |DEFAULT_WRITES|
    ensures r.0.Fail? ==> r.0.error == TransportError || r.0.error == ResetFailed
  {
    var (o, s1) := ResetSpec(s);
    if o.Fail? then (o, s1) else WriteAll(s1, DEFAULT_WRITES)
  }

  /** A failed reset issues no configuration write.  After a successful reset
      the writes (0x82, 0x1B), (0x83, 0x01), (0x80, 0x01), (0x81, 0x23),
      (0x84, 0x02), (0x85, 0x04) are issued in this order, each only after the
      previous one succeeded, and the first failure is the last write issued. */
  lemma LoadDefaultsChain(s: BusState)
    requires s.Valid()
    ensures var (r, s1) := ResetSpec(s);
            var (o, s') := LoadDefaultsSpec(s);
            var n := |s'.trace| - |s1.trace|;
            && (r.Fail? ==> (o, s') == (r, s1))
            && (r.Pass? ==>
                  && 0 <= n <= 6
                  && s'.trace == s1.trace + WriteOps(DEFAULT_WRITES[..n])
                  && (o.Pass? <==> forall i :: 0 <= i < 6 ==> s1.Acks(i))
                  && (o.Pass? ==> n == 6 && s'.regs == Apply(s1.regs, DEFAULT_WRITES))
                  && (o.Fail? ==> o.error == TransportError && n >= 1 && !s1.Acks(n - 1)
                                  && forall i :: 0 <= i < n - 1 ==> s1.Acks(i)))
  {
    var (r, s1) := ResetSpec(s);
    if r.Pass? {
      WriteAllTrace(s1, DEFAULT_WRITES);
      WriteAllStopsAtFirstFailure(s1, DEFAULT_WRITES);
      WriteAllStore(s1, DEFAULT_WRITES);
    }
  }

  // ---------------------------------------------------------------------------
  // Identity check

  /** `init`: select the ID register by writing 0, read the part and revision
      ID, and on a match run the default configuration. */
  function InitSpec(s: BusState): (r: (Result<bv8, DriverError>, BusState))
    requires s.Valid()
    ensures r.1.Valid() && r.1.faults == s.faults
    ensures |s.trace| < |r.1.trace| <= |s.trace| + 2 + 1 + MAX_RETRIES + |DEFAULT_WRITES|
    ensures r.0.Ok? ==> r.0.value == PART_ID
  {
    var (ok, s1) := Write(s, REGISTER_PARTID, 0);
    if !ok then (Err(TransportError), s1)
    else
      var (b, s2) := Read(s1, REGISTER_PARTID);
      if b.None? then (Err(TransportError), s2)
      else if b.value != PartId() then (Err(UnexpectedPartId(b.value)), s2)
      else
        var (o, s3) := LoadDefaultsSpec(s2);
        if o.Fail? then (Err(o.error), s3) else (Ok(b.value), s3)
  }

  /** The byte `init` reads back as the part ID, when its select write and the
      read both succeed. */
  function IdAnswer(s: BusState): Option<bv8>
    requires s.Valid()
  {
    var s1 := Write(s, REGISTER_PARTID, 0).1;
    if s.NextFails() then None else Read(s1, REGISTER_PARTID).0
  }

  /** `init` begins with the write (0x86, 0) and the read of 0x86.  When the
      byte read is not 0x92 it rejects with that byte and issues nothing else;
      it resolves only with 0x92, and exactly when the configuration that
      follows the identity check succeeds. */
  lemma InitChecksIdentity(s: BusState)
    requires s.Valid()
    ensures var (r, s') := InitSpec(s);
            && |s'.trace| >= |s.trace| + 1
            && s'.trace[..|s.trace| + 1] == s.trace + [WriteOp(REGISTER_PARTID, 0)]
            && (!s.NextFails() ==> |s'.trace| >= |s.trace| + 2 && s'.trace[|s.trace| + 1] == ReadOp(REGISTER_PARTID))
            && (IdAnswer(s).Some? && IdAnswer(s).value != PART_ID ==>
                  r == Err(UnexpectedPartId(IdAnswer(s).value))
                  && s'.trace == s.trace + [WriteOp(REGISTER_PARTID, 0), ReadOp(REGISTER_PARTID)])
            && (IdAnswer(s).None? ==>
                  r == Err(TransportError)
                  && s'.trace == s.trace + [WriteOp(REGISTER_PARTID, 0)]
                                         + (if s.NextFails() then [] else [ReadOp(REGISTER_PARTID)]))
            && (r.Ok? ==> r.value == PART_ID && IdAnswer(s) == Some(PART_ID))
            && (IdAnswer(s) == Some(PART_ID) ==>
                  var s2 := Read(Write(s, REGISTER_PARTID, 0).1, REGISTER_PARTID).1;
                  && (r.Ok? <==> LoadDefaultsSpec(s2).0.Pass?)
                  && (r.Err? ==> r.error == LoadDefaultsSpec(s2).0.error)
                  && s' == LoadDefaultsSpec(s2).1)
  {
    var (ok, s1) := Write(s, REGISTER_PARTID, 0);
    if ok {
      var (b, s2) := Read(s1, REGISTER_PARTID);
      if b == Some(PART_ID) {
        LoadDefaultsExtends(s2);
        var s' := InitSpec(s).1;
        assert s'.trace[..|s2.trace|] == s.trace + [WriteOp(REGISTER_PARTID, 0), ReadOp(REGISTER_PARTID)];
        assert s'.trace[..|s.trace| + 1] == s'.trace[..|s2.trace|][..|s.trace| + 1];
      }
    }
  }

  /** The configuration issues at least one operation, after those already on
      the bus. */
  lemma LoadDefaultsExtends(s: BusState)
    requires s.Valid()
    ensures var s' := LoadDefaultsSpec(s).1;
            |s'.trace| > |s.trace| && s'.trace[..|s.trace|] == s.trace
  {
    ResetTrace(s);
    var (r, s1) := ResetSpec(s);
    assert s1.trace[..|s.trace|] == s.trace;
    if r.Pass? {
      WriteAllTrace(s1, DEFAULT_WRITES);
      var s' := LoadDefaultsSpec(s).1;
      assert s'.trace[..|s1.trace|] == s1.trace;
      assert s'.trace[..|s.trace|] == s'.trace[..|s1.trace|][..|s.trace|];
    }
  }

  /** A device that answers 0x92 to the ID read and clears its reset bit on
      the first poll is identified and fully configured, with exactly this
      sequence of bus transactions. */
  lemma InitOnHealthyDevice(s: BusState)
    requires s.Valid() && s.faults == {} && s.script == [0x92, 0]
    ensures InitSpec(s).0 == Ok(PART_ID)
    ensures InitSpec(s).1.trace == s.trace + [
              WriteOp(0x86, 0x00), ReadOp(0x86),
              WriteOp(0x80, 0x02), ReadOp(0x80),
              WriteOp(0x82, 0x1B), WriteOp(0x83, 0x01), WriteOp(0x80, 0x01),
              WriteOp(0x81, 0x23), WriteOp(0x84, 0x02), WriteOp(0x85, 0x04)]
  {
    var s2 := Read(Write(s, REGISTER_PARTID, 0).1, REGISTER_PARTID).1;
    assert s2.script == [0] && s2.trace == s.trace + [WriteOp(0x86, 0x00), ReadOp(0x86)];
    var s3 := ResetSpec(s2).1;
    assert ResetSpec(s2).0 == Pass && s3.trace == s2.trace + [WriteOp(0x80, 0x02), ReadOp(0x80)];
    LoadDefaultsChain(s2);
    DefaultWritesValues();
    assert DEFAULT_WRITES[..6] == DEFAULT_WRITES;
  }

  /** When the fourth configuration write fails, `init` reports the transport
      error and the last two configuration writes are never issued. */
  lemma InitStopsAtFailedWrite(s: BusState)
    requires s.Valid() && s.faults == {|s.trace| + 7} && s.script == [0x92, 0]
    ensures InitSpec(s).0 == Err(TransportError)
    ensures InitSpec(s).1.trace == s.trace + [
              WriteOp(0x86, 0x00), ReadOp(0x86),
              WriteOp(0x80, 0x02), ReadOp(0x80),
              WriteOp(0x82, 0x1B), WriteOp(0x83, 0x01), WriteOp(0x80, 0x01),
              WriteOp(0x81, 0x23)]
  {
    var s2 := Read(Write(s, REGISTER_PARTID, 0).1, REGISTER_PARTID).1;
    assert s2.script == [0] && s2.trace == s.trace + [WriteOp(0x86, 0x00), ReadOp(0x86)];
    var s3 := ResetSpec(s2).1;
    assert ResetSpec(s2).0 == Pass && s3.trace == s2.trace + [WriteOp(0x80, 0x02), ReadOp(0x80)];
    LoadDefaultsChain(s2);
    DefaultWritesValues();
    var n := |LoadDefaultsSpec(s2).1.trace| - |s3.trace|;
    assert !s3.Acks(3) && s3.Acks(0) && s3.Acks(1) && s3.Acks(2);
    assert n == 4;
  }
}
