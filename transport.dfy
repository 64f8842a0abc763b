/** The two-wire bus as the driver sees it: single-byte writes and reads and
    block reads at one device, each of which may fail.  The device side is
    simulated: a register store, a script of replies for single-byte reads
    (this is how a test makes the reset bit clear itself), and a set of
    operation numbers at which the transport reports an error. */
module Transport {
  import opened Wrappers
  import opened Registers

  /** One bus transaction as issued by the driver. */
  datatype Op = WriteOp(reg: Reg, value: bv8) | ReadOp(reg: Reg) | BlockReadOp(reg: Reg, length: nat)

  const REGISTER_COUNT := 256

  /** The observable state of bus and device.  `trace` lists every operation
      issued so far, failed ones included; the operation numbered `n` (its
      index in `trace`) fails exactly when `n in faults`. */
  datatype BusState = BusState(regs: seq<bv8>, trace: seq<Op>, script: seq<bv8>, faults: set<nat>)
  {
    predicate Valid() {
      |regs| == REGISTER_COUNT
    }

    /** Whether the next operation issued on the bus fails. */
    predicate NextFails() {
      |trace| in faults
    }

    /** Whether the `j`-th operation issued from this state on succeeds. */
    predicate Acks(j: nat) {
      |trace| + j !in faults
    }
  }

  /** Writes a byte to a register; a failed write leaves the store alone. */
  function Write(s: BusState, reg: Reg, value: bv8): (r: (bool, BusState))
    requires s.Valid()
    ensures r.1.Valid()
    ensures r.0 <==> !s.NextFails()
    ensures r.1.trace == s.trace + [WriteOp(reg, value)] && r.1.script == s.script && r.1.faults == s.faults
    ensures r.1.regs[reg] == (if r.0 then value else s.regs[reg])
    ensures forall i :: 0 <= i < REGISTER_COUNT && i != reg ==> r.1.regs[i] == s.regs[i]
  {
    var trace := s.trace + [WriteOp(reg, value)];
    if s.NextFails() then (false, s.(trace := trace))
    else (true, s.(regs := s.regs[reg := value], trace := trace))
  }

  /** Reads a byte: the next scripted reply if there is one, else the store. */
  function Read(s: BusState, reg: Reg): (r: (Option<bv8>, BusState))
    requires s.Valid()
    ensures r.1.Valid()
    ensures r.0.None? <==> s.NextFails()
    ensures r.0.Some? ==> r.0.value == (if s.script != [] then s.script[0] else s.regs[reg])
    ensures r.1.trace == s.trace + [ReadOp(reg)] && r.1.regs == s.regs && r.1.faults == s.faults
    ensures r.1.script == (if r.0.Some? && s.script != [] then s.script[1..] else s.script)
  {
    var trace := s.trace + [ReadOp(reg)];
    if s.NextFails() then (None, s.(trace := trace))
    else if s.script != [] then (Some(s.script[0]), s.(trace := trace, script := s.script[1..]))
    else (Some(s.regs[reg]), s.(trace := trace))
  }

  /** Reads `length` consecutive registers starting at `reg`. */
  function ReadBlock(s: BusState, reg: Reg, length: nat): (r: (Option<seq<bv8>>, BusState))
    requires s.Valid() && reg + length <= REGISTER_COUNT
    ensures r.1.Valid()
    ensures r.0.None? <==> s.NextFails()
    ensures r.0.Some? ==> |r.0.value| == length && forall i :: 0 <= i < length ==> r.0.value[i] == s.regs[reg + i]
    ensures r.1.trace == s.trace + [BlockReadOp(reg, length)]
    ensures r.1.regs == s.regs && r.1.script == s.script && r.1.faults == s.faults
  {
    var trace := s.trace + [BlockReadOp(reg, length)];
    if s.NextFails() then (None, s.(trace := trace))
    else (Some(s.regs[reg..reg + length]), s.(trace := trace))
  }

  /** The simulated bus as a mutable object; each method performs one
      transaction, as described by the functions above. */
  class Bus {
    const regs: array<bv8>
    var trace: seq<Op>
    var script: seq<bv8>
    const faults: set<nat>

    ghost predicate Valid()
      reads this
    {
      regs.Length == REGISTER_COUNT
    }

    ghost function State(): BusState
      reads this, regs
    {
      BusState(regs[..], trace, script, faults)
    }

    constructor (store: seq<bv8>, replies: seq<bv8>, failing: set<nat>)
      requires |store| == REGISTER_COUNT
      ensures Valid() && fresh(regs)
      ensures State() == BusState(store, [], replies, failing)
    {
      regs := new bv8[REGISTER_COUNT](i => if 0 <= i < |store| then store[i] else 0);
      trace, script, faults := [], replies, failing;
    }

    method WriteByte(reg: Reg, value: bv8) returns (ok: bool)
      requires Valid()
      modifies this, regs
      ensures Valid()
      ensures (ok, State()) == Write(old(State()), reg, value)
    {
      ok := |trace| !in faults;
      if ok {
        regs[reg] := value;
      }
      trace := trace + [WriteOp(reg, value)];
    }

    method ReadByte(reg: Reg) returns (r: Option<bv8>)
      requires Valid()
      modifies this
      ensures Valid()
      ensures (r, State()) == Read(old(State()), reg)
    {
      if |trace| in faults {
        r := None;
      } else if script != [] {
        r := Some(script[0]);
        script := script[1..];
      } else {
        r := Some(regs[reg]);
      }
      trace := trace + [ReadOp(reg)];
    }

    method ReadI2cBlock(reg: Reg, length: nat) returns (r: Option<seq<bv8>>)
      requires Valid() && reg + length <= REGISTER_COUNT
      modifies this
      ensures Valid()
      ensures (r, State()) == ReadBlock(old(State()), reg, length)
    {
      if |trace| in faults {
        r := None;
      } else {
        r := Some(regs[reg..reg + length]);
      }
      trace := trace + [BlockReadOp(reg, length)];
    }
  }
}
