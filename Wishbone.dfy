/** The Wishbone traffic writer (WishbonePacketStreamer) and reader/checker
    (WishbonePacketChecker). WishbonetPacketStreamer and WishbonetPacketChecker are the same
    two FSMs with the bus attribute named wb, so these modules model both pairs. As for the
    AXI-Lite stages, pure functions specify one clock cycle and the classes step registers in
    place. */
module WishboneStreamer {
  import opened AddressArithmetic

  /** Full byte-select of a 32-bit word, 2**(32//8) - 1. */
  const SEL_ALL: nat := 0xF
  /** The last value of the delay counter in WAIT_DELAY. */
  const LAST_DELAY: nat := 10

  /** Value of the 10-bit delay register. */
  type Delay = x: int | 0 <= x < 1024

  datatype StreamerState = Idle | WrDat | WaitDelay

  /** The writer's registers: FSM state, base_addr, sent_data, delay, and the bus's dat_w,
      which the writer loads with NextValue and therefore is a register too. */
  datatype StreamerRegs = StreamerRegs(state: StreamerState, baseAddr: Addr, sentData: Data,
                                       delay: Delay, datW: Data)

  /** What the writer samples: start and the slave's ack. */
  datatype StreamerIn = StreamerIn(start: bool, ack: bool)

  /** What the writer drives: adr, dat_w, stb, cyc, we, sel, and end. */
  datatype StreamerOut = StreamerOut(adr: Addr, datW: Data, stb: bool, cyc: bool, we: bool,
                                     sel: nat, end: bool)

  function StreamerOutputs(p: Params, r: StreamerRegs, i: StreamerIn): StreamerOut
  {
    match r.state
    case Idle => StreamerOut(0, r.datW, false, false, false, 0, false)
    case WrDat => StreamerOut(r.baseAddr, r.datW, true, true, true, SEL_ALL, false)
    case WaitDelay =>
      StreamerOut(0, r.datW, false, false, false, 0, r.delay == LAST_DELAY && Target(p) == r.baseAddr)
  }

  function StreamerNext(p: Params, seed: nat, r: StreamerRegs, i: StreamerIn): StreamerRegs
  {
    match r.state
    case Idle =>
      r.(state := if i.start then WrDat else Idle, baseAddr := Wrap64(p.initAdr),
         sentData := Wrap32(seed), delay := 0)
    case WrDat =>
      r.(datW := r.sentData, state := if i.ack then WaitDelay else WrDat)
    case WaitDelay =>
      if r.delay == LAST_DELAY
      then r.(delay := 0, baseAddr := Wrap64(r.baseAddr + p.incrAdr), sentData := Wrap32(r.sentData + 1),
              state := if Target(p) == r.baseAddr then Idle else WrDat)
      else r.(delay := (r.delay + 1) % 1024)
  }

  /** The registers after a sequence of cycles. */
  function StreamerRun(p: Params, seed: nat, r: StreamerRegs, ins: seq<StreamerIn>): StreamerRegs
    decreases |ins|
  {
    if ins == [] then r else StreamerRun(p, seed, StreamerNext(p, seed, r, ins[0]), ins[1..])
  }

  /** While the delay counter is below 10, WAIT_DELAY only counts: whatever the inputs, the
      writer stays in WAIT_DELAY with its address and data unchanged and asserts nothing. */
  lemma {:induction false} StreamerDelayCounts(p: Params, seed: nat, r: StreamerRegs, ins: seq<StreamerIn>)
    requires r.state == WaitDelay && r.delay + |ins| <= LAST_DELAY
    ensures StreamerRun(p, seed, r, ins) == r.(delay := r.delay + |ins|)
    decreases |ins|
  {
    if ins != [] {
      StreamerDelayCounts(p, seed, StreamerNext(p, seed, r, ins[0]), ins[1..]);
    }
  }

  lemma {:induction false} StreamerRunAppend(p: Params, seed: nat, r: StreamerRegs, a: seq<StreamerIn>, b: seq<StreamerIn>)
    ensures StreamerRun(p, seed, r, a + b) == StreamerRun(p, seed, StreamerRun(p, seed, r, a), b)
    decreases |a|
  {
    if a != [] {
      assert (a + b)[0] == a[0];
      assert (a + b)[1..] == a[1..] + b;
      StreamerRunAppend(p, seed, StreamerNext(p, seed, r, a[0]), a[1..], b);
    } else {
      assert a + b == b;
    }
  }

  /** After each ack the writer pauses: it spends exactly 11 cycles in WAIT_DELAY (delay
      0 .. 10) that ignore the bus, and only the eleventh advances address and data by one
      transfer and either ends the session or requests the next write. */
  lemma {:induction false} StreamerPausesElevenCycles(p: Params, seed: nat, r: StreamerRegs, i: StreamerIn, ins: seq<StreamerIn>)
    requires r.state == WrDat && r.delay == 0 && i.ack && |ins| == 11
    ensures var w := StreamerNext(p, seed, r, i);
      w.state == WaitDelay && w.delay == 0 &&
      (forall j :: 0 <= j < 11 ==> StreamerRun(p, seed, w, ins[..j]).state == WaitDelay) &&
      StreamerRun(p, seed, w, ins) ==
        r.(state := if Target(p) == r.baseAddr then Idle else WrDat, datW := r.sentData,
           baseAddr := Wrap64(r.baseAddr + p.incrAdr), sentData := Wrap32(r.sentData + 1), delay := 0)
  {
    var w := StreamerNext(p, seed, r, i);
    forall j | 0 <= j < 11
      ensures StreamerRun(p, seed, w, ins[..j]).state == WaitDelay
    {
      StreamerDelayCounts(p, seed, w, ins[..j]);
    }
    StreamerDelayCounts(p, seed, w, ins[..10]);
    assert ins == ins[..10] + [ins[10]];
    StreamerRunAppend(p, seed, w, ins[..10], [ins[10]]);
    var v := StreamerRun(p, seed, w, ins[..10]);
    assert StreamerRun(p, seed, v, [ins[10]]) == StreamerNext(p, seed, v, ins[10]);
  }

  /** dat_w lags by a cycle: when the writer enters WR_DAT from IDLE, dat_w still holds what an
      earlier cycle stored, so a slave that acknowledged in that first cycle would store the
      previous word; from the second cycle in WR_DAT on, dat_w equals sent_data. */
  lemma StreamerDataLags(p: Params, seed: nat, r: StreamerRegs, i: StreamerIn, j: StreamerIn)
    requires r.state == Idle && i.start && r.datW != Wrap32(seed)
    ensures var w := StreamerNext(p, seed, r, i);
      w.state == WrDat && StreamerOutputs(p, w, j).stb && StreamerOutputs(p, w, j).datW != w.sentData &&
      (!j.ack ==> StreamerOutputs(p, StreamerNext(p, seed, w, j), j).datW == w.sentData)
  {
  }

  /** Restartability: IDLE reloads base_addr, sent_data and delay every cycle, so the next
      registers do not depend on their earlier values (dat_w, which IDLE leaves alone, aside). */
  lemma StreamerIdleRestarts(p: Params, seed: nat, r1: StreamerRegs, r2: StreamerRegs, i: StreamerIn)
    requires r1.state == Idle && r2.state == Idle && r1.datW == r2.datW
    ensures StreamerNext(p, seed, r1, i) == StreamerNext(p, seed, r2, i)
    ensures StreamerNext(p, seed, r1, i).baseAddr == AddressAt(p, 0)
    ensures StreamerNext(p, seed, r1, i).sentData == DataAt(seed, 0)
    ensures StreamerNext(p, seed, r1, i).delay == 0
  {
  }

  lemma StreamerDiscipline(p: Params, seed: nat, r: StreamerRegs, i: StreamerIn)
    ensures StreamerOutputs(p, r, i).end ==> r.state != Idle && StreamerNext(p, seed, r, i).state == Idle
    ensures (StreamerNext(p, seed, r, i).state != Idle) ==
      (if r.state == Idle then i.start else !StreamerOutputs(p, r, i).end)
  {
  }

  /** WishbonePacketStreamer: writes the incrementing pattern with one stb/cyc/we request per
      word, held until ack, followed by a pause. */
  class WishbonePacketStreamer {
    const params: Params
    const seed: nat
    var state: StreamerState
    var baseAddr: Addr
    var sentData: Data
    var delay: Delay
    var datW: Data

    function Regs(): StreamerRegs
      reads this
    {
      StreamerRegs(state, baseAddr, sentData, delay, datW)
    }

    function Outputs(i: StreamerIn): StreamerOut
      reads this
    {
      StreamerOutputs(params, Regs(), i)
    }

    constructor (mode: Addressing, initAdr: nat, initVal: nat, maxLen: nat)
      ensures params == Derive(mode, initAdr, maxLen) && seed == initVal
      ensures Regs() == StreamerRegs(Idle, 0, 0, 0, 0)
    {
      params := Derive(mode, initAdr, maxLen);
      seed := initVal;
      state, baseAddr, sentData, delay, datW := Idle, 0, 0, 0, 0;
    }

    method Step(i: StreamerIn) returns (o: StreamerOut)
      modifies this
      ensures o == StreamerOutputs(params, old(Regs()), i)
      ensures Regs() == StreamerNext(params, seed, old(Regs()), i)
    {
      o := StreamerOut(0, datW, false, false, false, 0, false);
      var nextState, nextAddr, nextData, nextDelay, nextDatW := state, baseAddr, sentData, delay, datW;
      match state {
        case Idle =>
          nextAddr := Wrap64(params.initAdr);
          nextData := Wrap32(seed);
          nextDelay := 0;
          if i.start {
            nextState := WrDat;
          }
        case WrDat =>
          nextDatW := sentData;
          o := o.(adr := baseAddr, stb := true, we := true, cyc := true, sel := SEL_ALL);
          if i.ack {
            nextState := WaitDelay;
          }
        case WaitDelay =>
          nextDelay := (delay + 1) % 1024;
          if delay == LAST_DELAY {
            // a later NextValue on the same register wins
            nextDelay := 0;
            nextAddr := Wrap64(baseAddr + params.incrAdr);
            nextData := Wrap32(sentData + 1);
            if Target(params) == baseAddr {
              o := o.(end := true);
              nextState := Idle;
            } else {
              nextState := WrDat;
            }
          }
      }
      state, baseAddr, sentData, delay, datW := nextState, nextAddr, nextData, nextDelay, nextDatW;
    }
  }
}

/** The Wishbone reader/checker, WishbonePacketChecker (and its copy WishbonetPacketChecker). */
module WishboneChecker {
  import opened AddressArithmetic

  const SEL_ALL: nat := 0xF

  datatype CheckerState = Idle | RdDat | WaitRdAck

  datatype CheckerRegs = CheckerRegs(state: CheckerState, baseAddr: Addr, recvData: Data)

  /** What the checker samples: start, the slave's ack and dat_r. */
  datatype CheckerIn = CheckerIn(start: bool, ack: bool, datR: Data)

  /** What the checker drives: adr, stb, cyc, we, sel, end and data_error. */
  datatype CheckerOut = CheckerOut(adr: Addr, stb: bool, cyc: bool, we: bool, sel: nat,
                                   end: bool, dataError: bool)

  const QUIET_CHECKER := CheckerOut(0, false, false, false, 0, false, false)

  function CheckerOutputs(p: Params, r: CheckerRegs, i: CheckerIn): CheckerOut
  {
    match r.state
    case Idle => QUIET_CHECKER
    case RdDat => CheckerOut(r.baseAddr, true, true, false, SEL_ALL, false, i.ack && i.datR != r.recvData)
    case WaitRdAck => CheckerOut(0, false, false, false, 0, Target(p) == r.baseAddr, false)
  }

  function CheckerNext(p: Params, seed: nat, r: CheckerRegs, i: CheckerIn): CheckerRegs
  {
    match r.state
    case Idle =>
      CheckerRegs(if i.start then RdDat else Idle, Wrap64(p.initAdr), Wrap32(seed))
    case RdDat =>
      if i.ack then r.(state := WaitRdAck) else r
    case WaitRdAck =>
      CheckerRegs(if Target(p) == r.baseAddr then Idle else RdDat,
                  Wrap64(r.baseAddr + p.incrAdr), Wrap32(r.recvData + 1))
  }

  /** data_error is pulsed exactly on an ack cycle whose dat_r differs from recv_data, and a
      mismatch neither stops nor diverts the checker: the next registers and end do not depend
      on dat_r. */
  lemma CheckerMismatchOnlyFlags(p: Params, seed: nat, r: CheckerRegs, i: CheckerIn, d: Data)
    ensures CheckerOutputs(p, r, i).dataError <==> r.state == RdDat && i.ack && i.datR != r.recvData
    ensures CheckerNext(p, seed, r, i) == CheckerNext(p, seed, r, i.(datR := d))
    ensures CheckerOutputs(p, r, i).end == CheckerOutputs(p, r, i.(datR := d)).end
  {
  }

  lemma CheckerIdleRestarts(p: Params, seed: nat, r1: CheckerRegs, r2: CheckerRegs, i: CheckerIn)
    requires r1.state == Idle && r2.state == Idle
    ensures CheckerNext(p, seed, r1, i) == CheckerNext(p, seed, r2, i)
    ensures CheckerNext(p, seed, r1, i) ==
      CheckerRegs(if i.start then RdDat else Idle, AddressAt(p, 0), DataAt(seed, 0))
  {
  }

  lemma CheckerDiscipline(p: Params, seed: nat, r: CheckerRegs, i: CheckerIn)
    ensures CheckerOutputs(p, r, i).end ==> r.state != Idle && CheckerNext(p, seed, r, i).state == Idle
    ensures (CheckerNext(p, seed, r, i).state != Idle) ==
      (if r.state == Idle then i.start else !CheckerOutputs(p, r, i).end)
  {
  }

  /** WishbonePacketChecker: one stb/cyc read per word, compared on ack. */
  class WishbonePacketChecker {
    const params: Params
    const seed: nat
    var state: CheckerState
    var baseAddr: Addr
    var recvData: Data

    function Regs(): CheckerRegs
      reads this
    {
      CheckerRegs(state, baseAddr, recvData)
    }

    function Outputs(i: CheckerIn): CheckerOut
      reads this
    {
      CheckerOutputs(params, Regs(), i)
    }

    constructor (mode: Addressing, initAdr: nat, initVal: nat, maxLen: nat)
      ensures params == Derive(mode, initAdr, maxLen) && seed == initVal
      ensures Regs() == CheckerRegs(Idle, 0, 0)
    {
      params := Derive(mode, initAdr, maxLen);
      seed := initVal;
      state, baseAddr, recvData := Idle, 0, 0;
    }

    method Step(i: CheckerIn) returns (o: CheckerOut)
      modifies this
      ensures o == CheckerOutputs(params, old(Regs()), i)
      ensures Regs() == CheckerNext(params, seed, old(Regs()), i)
    {
      o := QUIET_CHECKER;
      var nextState, nextAddr, nextData := state, baseAddr, recvData;
      match state {
        case Idle =>
          nextAddr := Wrap64(params.initAdr);
          nextData := Wrap32(seed);
          if i.start {
            nextState := RdDat;
          }
        case RdDat =>
          o := o.(adr := baseAddr, stb := true, we := false, cyc := true, sel := SEL_ALL);
          if i.ack {
            if i.datR != recvData {
              o := o.(dataError := true);
            }
            nextState := WaitRdAck;
          }
        case WaitRdAck =>
          nextAddr := Wrap64(baseAddr + params.incrAdr);
          nextData := Wrap32(recvData + 1);
          if Target(params) == baseAddr {
            o := o.(end := true);
            nextState := Idle;
          } else {
            nextState := RdDat;
          }
      }
      state, baseAddr, recvData := nextState, nextAddr, nextData;
    }
  }
}
