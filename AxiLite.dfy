/** The AXI-Lite traffic writer (AXIPacketStreamer) and reader/checker (AXIPacketChecker).
    Each stage is a cycle-stepped FSM: its outputs are computed combinationally from the
    current registers and the slave-side inputs, and every register assignment takes effect
    at the end of the cycle. The pure functions below are the specification of one cycle;
    the classes hold the registers and step them in place. */
module AxiLiteStreamer {
  import opened AddressArithmetic

  /** Full byte-enable of a 32-bit beat, 2**(32//8) - 1. */
  const STRB_ALL: nat := 0xF

  datatype StreamerState = Idle | WrDatAdr | WaitDat | WaitB

  /** The writer's registers: FSM state, base_addr and sent_data. */
  datatype StreamerRegs = StreamerRegs(state: StreamerState, baseAddr: Addr, sentData: Data)

  /** What the writer samples in a cycle: start, and the slave's aw.ready, w.ready, b.valid. */
  datatype StreamerIn = StreamerIn(start: bool, awReady: bool, wReady: bool, bValid: bool)

  /** What the writer drives in a cycle: its write-address, write-data and response channel
      signals, and end. */
  datatype StreamerOut = StreamerOut(awValid: bool, awAddr: Addr, wValid: bool, wData: Data,
                                     wStrb: nat, bReady: bool, end: bool)

  const QUIET_STREAMER := StreamerOut(false, 0, false, 0, 0, false, false)

  /** Combinational outputs of the writer, corrected to drive w.data in WAIT_DAT as well. The
      code as written is StreamerOutputsAsWritten, which the class follows; the two differ only
      in w.data in WAIT_DAT (StreamerAsWrittenDiffersOnlyInData). */
  function StreamerOutputs(p: Params, r: StreamerRegs, i: StreamerIn): StreamerOut
  {
    match r.state
    case Idle => QUIET_STREAMER
    case WrDatAdr => StreamerOut(true, r.baseAddr, true, r.sentData, STRB_ALL, false, false)
    case WaitDat => StreamerOut(false, 0, true, r.sentData, STRB_ALL, false, false)
    case WaitB => StreamerOut(false, 0, false, 0, 0, true, i.bValid && Target(p) == r.baseAddr)
  }

  /** The writer's outputs as the code drives them: WAIT_DAT raises w.valid but never assigns
      w.data, so the data channel carries the signal's default, 0. */
  function StreamerOutputsAsWritten(p: Params, r: StreamerRegs, i: StreamerIn): StreamerOut
  {
    if r.state == WaitDat then StreamerOut(false, 0, true, 0, STRB_ALL, false, false)
    else StreamerOutputs(p, r, i)
  }

  /** Register values at the end of the cycle. */
  function StreamerNext(p: Params, seed: nat, r: StreamerRegs, i: StreamerIn): StreamerRegs
  {
    match r.state
    case Idle =>
      StreamerRegs(if i.start then WrDatAdr else Idle, Wrap64(p.initAdr), Wrap32(seed))
    case WrDatAdr =>
      if !i.awReady then r else if i.wReady then r.(state := WaitB) else r.(state := WaitDat)
    case WaitDat =>
      if i.wReady then r.(state := WaitB) else r
    case WaitB =>
      if !i.bValid then r
      else StreamerRegs(if Target(p) == r.baseAddr then Idle else WrDatAdr,
                        Wrap64(r.baseAddr + p.incrAdr), Wrap32(r.sentData + 1))
  }

  /** Restartability: a cycle spent in IDLE reloads base_addr and sent_data, so what the writer
      does next depends only on start, never on what an earlier session left behind. */
  lemma StreamerIdleRestarts(p: Params, seed: nat, r1: StreamerRegs, r2: StreamerRegs, i: StreamerIn)
    requires r1.state == Idle && r2.state == Idle
    ensures StreamerNext(p, seed, r1, i) == StreamerNext(p, seed, r2, i)
    ensures StreamerNext(p, seed, r1, i) ==
      StreamerRegs(if i.start then WrDatAdr else Idle, AddressAt(p, 0), DataAt(seed, 0))
  {
  }

  /** The address and data registers move only on b.valid in WAIT_B (by _incr_adr and 1,
      modulo their widths) or by the reload in IDLE; no other state changes them. */
  lemma StreamerAdvancesOnlyOnResponse(p: Params, seed: nat, r: StreamerRegs, i: StreamerIn)
    requires r.state != Idle
    ensures var n := StreamerNext(p, seed, r, i);
      if r.state == WaitB && i.bValid
      then n.baseAddr == Wrap64(r.baseAddr + p.incrAdr) && n.sentData == Wrap32(r.sentData + 1)
      else n.baseAddr == r.baseAddr && n.sentData == r.sentData
  {
  }

  /** Partial acceptance is tracked one way only: w.ready without aw.ready leaves the writer in
      WR_DAT-ADR, which keeps w.valid raised with the same beat. */
  lemma StreamerDataAloneNotTracked(p: Params, seed: nat, r: StreamerRegs, i: StreamerIn)
    requires r.state == WrDatAdr && i.wReady && !i.awReady
    ensures StreamerNext(p, seed, r, i) == r
    ensures StreamerOutputs(p, StreamerNext(p, seed, r, i), i).wValid
  {
  }

  /** As written, a slave that accepts the address before the data receives 0 instead of
      sent_data whenever sent_data is not 0. */
  lemma StreamerWaitDatSendsZero(p: Params, r: StreamerRegs, i: StreamerIn)
    requires r.state == WaitDat && r.sentData != 0
    ensures StreamerOutputsAsWritten(p, r, i).wValid
    ensures StreamerOutputsAsWritten(p, r, i).wData == 0 != r.sentData
    ensures StreamerOutputs(p, r, i).wData == r.sentData
  {
  }

  /** The code as written and the corrected writer drive the same outputs in every state but
      WAIT_DAT, and there they differ in w.data alone. */
  lemma StreamerAsWrittenDiffersOnlyInData(p: Params, r: StreamerRegs, i: StreamerIn)
    ensures r.state != WaitDat ==> StreamerOutputsAsWritten(p, r, i) == StreamerOutputs(p, r, i)
    ensures StreamerOutputsAsWritten(p, r, i) ==
      StreamerOutputs(p, r, i).(wData := StreamerOutputsAsWritten(p, r, i).wData)
  {
  }

  /** How the writer takes part in the pipeline: end only comes from a busy writer, which then
      goes idle; an idle writer leaves IDLE exactly on start; a busy one stays busy until end. */
  lemma StreamerDiscipline(p: Params, seed: nat, r: StreamerRegs, i: StreamerIn)
    ensures StreamerOutputs(p, r, i).end ==> r.state != Idle && StreamerNext(p, seed, r, i).state == Idle
    ensures (StreamerNext(p, seed, r, i).state != Idle) ==
      (if r.state == Idle then i.start else !StreamerOutputs(p, r, i).end)
    ensures StreamerOutputsAsWritten(p, r, i).end == StreamerOutputs(p, r, i).end
  {
  }

  /** AXIPacketStreamer: writes init_val, init_val + 1, ... to base addresses init_adr,
      init_adr + _incr_adr, ... through one AXI-Lite master port. */
  class AXIPacketStreamer {
    const params: Params
    const seed: nat
    var state: StreamerState
    var baseAddr: Addr
    var sentData: Data

    function Regs(): StreamerRegs
      reads this
    {
      StreamerRegs(state, baseAddr, sentData)
    }

    /** The combinational outputs in the current cycle for inputs i, as the code drives them. */
    function Outputs(i: StreamerIn): StreamerOut
      reads this
    {
      StreamerOutputsAsWritten(params, Regs(), i)
    }

    constructor (mode: Addressing, initAdr: nat, initVal: nat, maxLen: nat)
      ensures params == Derive(mode, initAdr, maxLen) && seed == initVal
      ensures Regs() == StreamerRegs(Idle, 0, 0)
    {
      params := Derive(mode, initAdr, maxLen);
      seed := initVal;
      state, baseAddr, sentData := Idle, 0, 0;
    }

    /** One clock cycle: drive the outputs from the current registers, then commit every
        NextValue / NextState at the clock edge. WAIT_DAT leaves w.data at its default 0. */
    method Step(i: StreamerIn) returns (o: StreamerOut)
      modifies this
      ensures o == StreamerOutputsAsWritten(params, old(Regs()), i)
      ensures Regs() == StreamerNext(params, seed, old(Regs()), i)
    {
      o := QUIET_STREAMER;
      var nextState, nextAddr, nextData := state, baseAddr, sentData;
      match state {
        case Idle =>
          nextAddr := Wrap64(params.initAdr);
          nextData := Wrap32(seed);
          if i.start {
            nextState := WrDatAdr;
          }
        case WrDatAdr =>
          o := o.(awValid := true, awAddr := baseAddr, wData := sentData, wValid := true, wStrb := STRB_ALL);
          if i.awReady {
            if i.wReady {
              nextState := WaitB;
            } else {
              nextState := WaitDat;
            }
          }
        case WaitDat =>
          o := o.(wValid := true, wStrb := STRB_ALL);
          if i.wReady {
            nextState := WaitB;
          }
        case WaitB =>
          o := o.(bReady := true);
          if i.bValid {
            nextAddr := Wrap64(baseAddr + params.incrAdr);
            nextData := Wrap32(sentData + 1);
            if Target(params) == baseAddr {
              o := o.(end := true);
              nextState := Idle;
            } else {
              nextState := WrDatAdr;
            }
          }
      }
      state, baseAddr, sentData := nextState, nextAddr, nextData;
    }
  }
}

/** The AXI-Lite reader/checker, AXIPacketChecker. */
module AxiLiteChecker {
  import opened AddressArithmetic

  datatype CheckerState = Idle | RdAddr | RdDat | WaitRdAck

  /** The checker's registers: FSM state, base_addr and recv_data (the expected word). */
  datatype CheckerRegs = CheckerRegs(state: CheckerState, baseAddr: Addr, recvData: Data)

  /** What the checker samples: start, and the slave's ar.ready, r.valid and r.data. */
  datatype CheckerIn = CheckerIn(start: bool, arReady: bool, rValid: bool, rData: Data)

  /** What the checker drives: read-address and read-data channel signals, end, data_error. */
  datatype CheckerOut = CheckerOut(arValid: bool, arAddr: Addr, rReady: bool, end: bool, dataError: bool)

  const QUIET_CHECKER := CheckerOut(false, 0, false, false, false)

  function CheckerOutputs(p: Params, r: CheckerRegs, i: CheckerIn): CheckerOut
  {
    match r.state
    case Idle => QUIET_CHECKER
    case RdAddr => CheckerOut(true, r.baseAddr, false, false, false)
    case RdDat => CheckerOut(false, 0, true, false, i.rValid && i.rData != r.recvData)
    case WaitRdAck => CheckerOut(false, 0, false, Target(p) == r.baseAddr, false)
  }

  function CheckerNext(p: Params, seed: nat, r: CheckerRegs, i: CheckerIn): CheckerRegs
  {
    match r.state
    case Idle =>
      CheckerRegs(if i.start then RdAddr else Idle, Wrap64(p.initAdr), Wrap32(seed))
    case RdAddr =>
      if i.arReady then r.(state := RdDat) else r
    case RdDat =>
      if i.rValid then r.(state := WaitRdAck) else r
    case WaitRdAck =>
      CheckerRegs(if Target(p) == r.baseAddr then Idle else RdAddr,
                  Wrap64(r.baseAddr + p.incrAdr), Wrap32(r.recvData + 1))
  }

  /** data_error is raised exactly on an r.valid cycle of RD_DAT whose word differs from
      recv_data, and a mismatch never changes where the checker goes: the next registers do
      not depend on r.data at all. */
  lemma CheckerMismatchOnlyFlags(p: Params, seed: nat, r: CheckerRegs, i: CheckerIn, d: Data)
    ensures CheckerOutputs(p, r, i).dataError <==> r.state == RdDat && i.rValid && i.rData != r.recvData
    ensures CheckerNext(p, seed, r, i) == CheckerNext(p, seed, r, i.(rData := d))
    ensures CheckerOutputs(p, r, i).end == CheckerOutputs(p, r, i.(rData := d)).end
  {
  }

  lemma CheckerIdleRestarts(p: Params, seed: nat, r1: CheckerRegs, r2: CheckerRegs, i: CheckerIn)
    requires r1.state == Idle && r2.state == Idle
    ensures CheckerNext(p, seed, r1, i) == CheckerNext(p, seed, r2, i)
    ensures CheckerNext(p, seed, r1, i) ==
      CheckerRegs(if i.start then RdAddr else Idle, AddressAt(p, 0), DataAt(seed, 0))
  {
  }

  lemma CheckerDiscipline(p: Params, seed: nat, r: CheckerRegs, i: CheckerIn)
    ensures CheckerOutputs(p, r, i).end ==> r.state != Idle && CheckerNext(p, seed, r, i).state == Idle
    ensures (CheckerNext(p, seed, r, i).state != Idle) ==
      (if r.state == Idle then i.start else !CheckerOutputs(p, r, i).end)
  {
  }

  /** AXIPacketChecker: reads back the addresses its writer twin wrote and compares every word
      with the expected incrementing pattern. */
  class AXIPacketChecker {
    const params: Params
    const seed: nat
    var state: CheckerState
    var baseAddr: Addr
    var recvData: Data

    function Regs(): CheckerRegs
      reads this
    {
      CheckerRegs(state, baseAddr, recvData)
    }

    function Outputs(i: CheckerIn): CheckerOut
      reads this
    {
      CheckerOutputs(params, Regs(), i)
    }

    constructor (mode: Addressing, initAdr: nat, initVal: nat, maxLen: nat)
      ensures params == Derive(mode, initAdr, maxLen) && seed == initVal
      ensures Regs() == CheckerRegs(Idle, 0, 0)
    {
      params := Derive(mode, initAdr, maxLen);
      seed := initVal;
      state, baseAddr, recvData := Idle, 0, 0;
    }

    method Step(i: CheckerIn) returns (o: CheckerOut)
      modifies this
      ensures o == CheckerOutputs(params, old(Regs()), i)
      ensures Regs() == CheckerNext(params, seed, old(Regs()), i)
    {
      o := QUIET_CHECKER;
      var nextState, nextAddr, nextData := state, baseAddr, recvData;
      match state {
        case Idle =>
          nextAddr := Wrap64(params.initAdr);
          nextData := Wrap32(seed);
          if i.start {
            nextState := RdAddr;
          }
        case RdAddr =>
          o := o.(arValid := true, arAddr := baseAddr);
          if i.arReady {
            nextState := RdDat;
          }
        case RdDat =>
          o := o.(rReady := true);
          if i.rValid {
            if i.rData != recvData {
              o := o.(dataError := true);
            }
            nextState := WaitRdAck;
          }
        case WaitRdAck =>
          nextAddr := Wrap64(baseAddr + params.incrAdr);
          nextData := Wrap32(recvData + 1);
          if Target(params) == baseAddr {
            o := o.(end := true);
            nextState := Idle;
          } else {
            nextState := RdAddr;
          }
      }
      state, baseAddr, recvData := nextState, nextAddr, nextData;
    }
  }
}
