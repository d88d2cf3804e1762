/** Whole AXI-Lite sessions: the writer and the checker run cycle by cycle against a slave
    whose readiness on each cycle is an arbitrary input (a timing), over a word memory.
    The theorems say what a session leaves behind whatever the slave's timing: the writer
    leaves the written pattern and pulses end once; the checker pulses data_error exactly
    for the words that differ, in address order, and pulses end once. */
module AxiLiteSessions {
  import opened AddressArithmetic
  import opened Transfers
  import S = AxiLiteStreamer
  import C = AxiLiteChecker

  // ---------------------------------------------------------------- write side

  /** The slave's write channel: waiting for an address, holding one (data pending), or
      with a write response pending. It never takes a data beat before its address. */
  datatype WriteSlave = AwaitAddr | HoldAddr(addr: Addr) | Respond

  /** The slave's readiness on one cycle: aw.ready, w.ready and b.valid, as it chooses. */
  datatype WriteTiming = WriteTiming(acceptAddr: bool, acceptData: bool, respond: bool)

  function WriteInputs(s: WriteSlave, t: WriteTiming): S.StreamerIn
  {
    S.StreamerIn(false,
      s == AwaitAddr && t.acceptAddr,
      (s == AwaitAddr && t.acceptAddr && t.acceptData) || (s.HoldAddr? && t.acceptData),
      s == Respond && t.respond)
  }

  /** Writer registers, slave, memory, and two counters over the session so far: completed
      write responses (b handshakes) and end pulses. */
  datatype WriteSession = WriteSession(regs: S.StreamerRegs, slave: WriteSlave, mem: Memory,
                                       responses: nat, ends: nat)

  /** One clock cycle of writer and slave together, the writer driving o. A data beat is
      stored at the address the slave holds (or takes in the same cycle). */
  function WriteCycleDriven(p: Params, seed: nat, w: WriteSession, t: WriteTiming, o: S.StreamerOut): WriteSession
  {
    var i := WriteInputs(w.slave, t);
    var aw := o.awValid && i.awReady;
    var wd := o.wValid && i.wReady;
    var b := o.bReady && i.bValid;
    var slave := match w.slave
      case AwaitAddr => if aw && wd then Respond else if aw then HoldAddr(o.awAddr) else AwaitAddr
      case HoldAddr(_) => if wd then Respond else w.slave
      case Respond => if b then AwaitAddr else Respond;
    var mem := if wd && w.slave.HoldAddr? then w.mem[w.slave.addr := o.wData]
               else if wd && aw then w.mem[o.awAddr := o.wData]
               else w.mem;
    WriteSession(S.StreamerNext(p, seed, w.regs, i), slave, mem,
                 w.responses + (if b then 1 else 0), w.ends + (if o.end then 1 else 0))
  }

  /** One clock cycle, with the writer's outputs with w.data driven in WAIT_DAT. */
  function WriteCycle(p: Params, seed: nat, w: WriteSession, t: WriteTiming): WriteSession
  {
    WriteCycleDriven(p, seed, w, t, S.StreamerOutputs(p, w.regs, WriteInputs(w.slave, t)))
  }

  /** One clock cycle, with the writer's outputs as the code drives them. */
  function WriteCycleAsWritten(p: Params, seed: nat, w: WriteSession, t: WriteTiming): WriteSession
  {
    WriteCycleDriven(p, seed, w, t, S.StreamerOutputsAsWritten(p, w.regs, WriteInputs(w.slave, t)))
  }

  /** A slave that takes the address one cycle before the data: as written, the first word of
      the high session is stored as 0, and the writer nevertheless goes on to WAIT_B as if it
      had been written; with w.data driven in WAIT_DAT the word stored is init_val. */
  lemma SlowDataStoresZero(m0: Memory)
    ensures var p, seed := Derive(Byte, 0x4_0000_0000, 0x100), 0x1234_5678;
      var t1, t2 := WriteTiming(true, false, false), WriteTiming(false, true, false);
      var w := WriteBegin(p, seed, m0);
      var bad := WriteCycleAsWritten(p, seed, WriteCycleAsWritten(p, seed, w, t1), t2);
      var good := WriteCycle(p, seed, WriteCycle(p, seed, w, t1), t2);
      bad.regs.state == S.WaitB && Read(bad.mem, 0x4_0000_0000) == 0 &&
      good.regs.state == S.WaitB && good.mem == Written(m0, p, seed, 1) &&
      Read(good.mem, 0x4_0000_0000) == 0x1234_5678
  {
    var p, seed := Derive(Byte, 0x4_0000_0000, 0x100), 0x1234_5678;
    assert AddressAt(p, 0) == 0x4_0000_0000;
    assert DataAt(seed, 0) == 0x1234_5678;
  }

  function WriteRun(p: Params, seed: nat, w: WriteSession, ts: seq<WriteTiming>): WriteSession
    decreases |ts|
  {
    if ts == [] then w else WriteRun(p, seed, WriteCycle(p, seed, w, ts[0]), ts[1..])
  }

  /** The session right after start: the writer left IDLE with the first address and word. */
  function WriteBegin(p: Params, seed: nat, m0: Memory): WriteSession
  {
    WriteSession(S.StreamerRegs(S.WrDatAdr, AddressAt(p, 0), DataAt(seed, 0)), AwaitAddr, m0, 0, 0)
  }

  /** Where a session over m0 can be: while busy on transfer k = responses, the registers
      hold transfer k, the slave's channel matches the writer's state, and the memory holds
      the first k words (k + 1 once the data beat of transfer k went through). */
  predicate WriteInv(p: Params, seed: nat, m0: Memory, w: WriteSession)
  {
    var k := w.responses;
    Completes(p) && k <= TransferCount(p) &&
    (w.regs.state == S.Idle ==>
       k == TransferCount(p) && w.ends == 1 && w.slave == AwaitAddr &&
       w.mem == Written(m0, p, seed, k)) &&
    (w.regs.state != S.Idle ==>
       k < TransferCount(p) && w.ends == 0 &&
       w.regs.baseAddr == AddressAt(p, k) && w.regs.sentData == DataAt(seed, k)) &&
    (w.regs.state == S.WrDatAdr ==> w.slave == AwaitAddr && w.mem == Written(m0, p, seed, k)) &&
    (w.regs.state == S.WaitDat ==> w.slave == HoldAddr(AddressAt(p, k)) && w.mem == Written(m0, p, seed, k)) &&
    (w.regs.state == S.WaitB ==> w.slave == Respond && w.mem == Written(m0, p, seed, k + 1))
  }

  lemma WriteCycleKeeps(p: Params, seed: nat, m0: Memory, w: WriteSession, t: WriteTiming)
    requires WriteInv(p, seed, m0, w)
    ensures WriteInv(p, seed, m0, WriteCycle(p, seed, w, t))
  {
    if w.regs.state == S.WaitB && t.respond {
      WriteCycleKeepsResponse(p, seed, m0, w, t);
    }
  }

  /** The write response: the registers move to transfer k + 1, or the session ends. */
  lemma WriteCycleKeepsResponse(p: Params, seed: nat, m0: Memory, w: WriteSession, t: WriteTiming)
    requires WriteInv(p, seed, m0, w) && w.regs.state == S.WaitB && t.respond
    ensures WriteInv(p, seed, m0, WriteCycle(p, seed, w, t))
  {
    var k := w.responses;
    LastTransfer(p, k);
    AddressAdvance(p, k);
    DataAdvance(seed, k);
    var n := WriteCycle(p, seed, w, t);
    assert n.regs == S.StreamerRegs(if k == TransferCount(p) - 1 then S.Idle else S.WrDatAdr,
                                    AddressAt(p, k + 1), DataAt(seed, k + 1));
  }

  lemma {:induction false} WriteRunKeeps(p: Params, seed: nat, m0: Memory, w: WriteSession, ts: seq<WriteTiming>)
    requires WriteInv(p, seed, m0, w)
    ensures WriteInv(p, seed, m0, WriteRun(p, seed, w, ts))
    decreases |ts|
  {
    if ts != [] {
      WriteCycleKeeps(p, seed, m0, w, ts[0]);
      WriteRunKeeps(p, seed, m0, WriteCycle(p, seed, w, ts[0]), ts[1..]);
    }
  }

  /** Write round trip, for every slave timing: the writer pulses end at most once, it is back
      in IDLE exactly when it did, and by then the memory is m0 with the whole pattern written
      (word k of the session at address k) after exactly TransferCount(p) responses. */
  lemma WriteSessionCorrect(p: Params, seed: nat, m0: Memory, ts: seq<WriteTiming>)
    requires Completes(p)
    ensures var w := WriteRun(p, seed, WriteBegin(p, seed, m0), ts);
      w.ends <= 1 && (w.ends == 1 <==> w.regs.state == S.Idle) &&
      w.responses <= TransferCount(p) &&
      (w.ends == 1 ==> w.responses == TransferCount(p) && w.mem == Written(m0, p, seed, TransferCount(p)))
  {
    assert AddressAt(p, 0) == p.initAdr;
    WriteRunKeeps(p, seed, m0, WriteBegin(p, seed, m0), ts);
  }

  /** A slave that never takes an address without its data beat in the same cycle. */
  predicate DataWithAddress(t: WriteTiming)
  {
    t.acceptAddr ==> t.acceptData
  }

  function WriteRunAsWritten(p: Params, seed: nat, w: WriteSession, ts: seq<WriteTiming>): WriteSession
    decreases |ts|
  {
    if ts == [] then w else WriteRunAsWritten(p, seed, WriteCycleAsWritten(p, seed, w, ts[0]), ts[1..])
  }

  /** Against a slave that takes the data with the address, the writer as written never
      reaches WAIT_DAT, so it runs exactly as the corrected one. */
  lemma {:induction false} WriteRunAsWrittenAgrees(p: Params, seed: nat, w: WriteSession, ts: seq<WriteTiming>)
    requires w.regs.state != S.WaitDat
    requires forall j :: 0 <= j < |ts| ==> DataWithAddress(ts[j])
    ensures WriteRunAsWritten(p, seed, w, ts) == WriteRun(p, seed, w, ts)
    decreases |ts|
  {
    if ts != [] {
      S.StreamerAsWrittenDiffersOnlyInData(p, w.regs, WriteInputs(w.slave, ts[0]));
      var n := WriteCycle(p, seed, w, ts[0]);
      assert WriteCycleAsWritten(p, seed, w, ts[0]) == n;
      assert n.regs.state != S.WaitDat;
      WriteRunAsWrittenAgrees(p, seed, n, ts[1..]);
    }
  }

  /** Write round trip of the writer as written, for every timing of a slave that takes the
      data with the address: the same conclusions as WriteSessionCorrect. */
  lemma WriteSessionAsWrittenCorrect(p: Params, seed: nat, m0: Memory, ts: seq<WriteTiming>)
    requires Completes(p)
    requires forall j :: 0 <= j < |ts| ==> DataWithAddress(ts[j])
    ensures var w := WriteRunAsWritten(p, seed, WriteBegin(p, seed, m0), ts);
      w.ends <= 1 && (w.ends == 1 <==> w.regs.state == S.Idle) &&
      w.responses <= TransferCount(p) &&
      (w.ends == 1 ==> w.responses == TransferCount(p) && w.mem == Written(m0, p, seed, TransferCount(p)))
  {
    WriteRunAsWrittenAgrees(p, seed, WriteBegin(p, seed, m0), ts);
    WriteSessionCorrect(p, seed, m0, ts);
  }

  lemma {:induction false} WriteRunAppend(p: Params, seed: nat, w: WriteSession, a: seq<WriteTiming>, b: seq<WriteTiming>)
    ensures WriteRun(p, seed, w, a + b) == WriteRun(p, seed, WriteRun(p, seed, w, a), b)
    decreases |a|
  {
    if a != [] {
      assert (a + b)[0] == a[0];
      assert (a + b)[1..] == a[1..] + b;
      WriteRunAppend(p, seed, WriteCycle(p, seed, w, a[0]), a[1..], b);
    } else {
      assert a + b == b;
    }
  }

  /** A slave that is always ready. */
  const WRITE_EAGER := WriteTiming(true, true, true)

  /** Where an eager session is after k transfers. */
  function WritePhase(p: Params, seed: nat, m0: Memory, k: nat): WriteSession
  {
    WriteSession(S.StreamerRegs(if k < TransferCount(p) then S.WrDatAdr else S.Idle, AddressAt(p, k), DataAt(seed, k)),
                 AwaitAddr, Written(m0, p, seed, k), k, if k < TransferCount(p) then 0 else 1)
  }

  lemma WriteEagerTransfer(p: Params, seed: nat, m0: Memory, k: nat)
    requires Completes(p) && k < TransferCount(p)
    ensures WriteRun(p, seed, WritePhase(p, seed, m0, k), Repeat(WRITE_EAGER, 2)) == WritePhase(p, seed, m0, k + 1)
  {
    LastTransfer(p, k);
    AddressAdvance(p, k);
    DataAdvance(seed, k);
    var w0 := WritePhase(p, seed, m0, k);
    var w1 := WriteCycle(p, seed, w0, WRITE_EAGER);
    assert w1.regs.state == S.WaitB;
    var w2 := WriteCycle(p, seed, w1, WRITE_EAGER);
    assert Repeat(WRITE_EAGER, 2) == [WRITE_EAGER, WRITE_EAGER];
    assert WriteRun(p, seed, w0, [WRITE_EAGER, WRITE_EAGER]) == WriteRun(p, seed, w1, [WRITE_EAGER]);
  }

  lemma {:induction false} WriteEagerPhases(p: Params, seed: nat, m0: Memory, k: nat)
    requires Completes(p) && k <= TransferCount(p)
    ensures WriteRun(p, seed, WriteBegin(p, seed, m0), Repeat(WRITE_EAGER, 2 * k)) == WritePhase(p, seed, m0, k)
  {
    if k == 0 {
      CountPositive(p);
      assert Repeat(WRITE_EAGER, 0) == [];
    } else {
      var a := Repeat(WRITE_EAGER, 2 * (k - 1));
      var b := Repeat(WRITE_EAGER, 2);
      RepeatAdd(WRITE_EAGER, 2 * (k - 1), 2);
      assert Repeat(WRITE_EAGER, 2 * k) == a + b;
      WriteRunAppend(p, seed, WriteBegin(p, seed, m0), a, b);
      WriteEagerPhases(p, seed, m0, k - 1);
      WriteEagerTransfer(p, seed, m0, k - 1);
    }
  }

  /** With an always-ready slave a session takes two cycles per word: after 2 * TransferCount(p)
      cycles the writer has ended. */
  lemma WriteEagerEnds(p: Params, seed: nat, m0: Memory)
    requires Completes(p)
    ensures var w := WriteRun(p, seed, WriteBegin(p, seed, m0), Repeat(WRITE_EAGER, 2 * TransferCount(p)));
      w.ends == 1 && w.regs.state == S.Idle && w.mem == Written(m0, p, seed, TransferCount(p))
  {
    WriteEagerPhases(p, seed, m0, TransferCount(p));
  }

  // ----------------------------------------------------------------- read side

  /** The slave's read channel: waiting for an address, or returning a word. */
  datatype ReadSlave = AwaitRead | Return(value: Data)

  /** The slave's readiness on one cycle: ar.ready and r.valid, as it chooses. */
  datatype ReadTiming = ReadTiming(acceptAddr: bool, respond: bool)

  function ReadInputs(s: ReadSlave, t: ReadTiming): C.CheckerIn
  {
    C.CheckerIn(false, s == AwaitRead && t.acceptAddr, s.Return? && t.respond,
                if s.Return? then s.value else 0)
  }

  /** Checker registers, slave, and over the session so far: read beats (r handshakes), end
      pulses, and the diagnostic of every data_error pulse (address, word seen, word expected). */
  datatype ReadSession = ReadSession(regs: C.CheckerRegs, slave: ReadSlave, beats: nat, ends: nat,
                                     log: seq<Report>)

  function ReadCycle(p: Params, seed: nat, m: Memory, r: ReadSession, t: ReadTiming): ReadSession
  {
    var i := ReadInputs(r.slave, t);
    var o := C.CheckerOutputs(p, r.regs, i);
    var ar := o.arValid && i.arReady;
    var rd := o.rReady && i.rValid;
    var slave := match r.slave
      case AwaitRead => if ar then Return(Read(m, o.arAddr)) else AwaitRead
      case Return(_) => if rd then AwaitRead else r.slave;
    ReadSession(C.CheckerNext(p, seed, r.regs, i), slave, r.beats + (if rd then 1 else 0),
                r.ends + (if o.end then 1 else 0),
                r.log + (if o.dataError then [Report(r.regs.baseAddr, i.rData, r.regs.recvData)] else []))
  }

  function ReadRun(p: Params, seed: nat, m: Memory, r: ReadSession, ts: seq<ReadTiming>): ReadSession
    decreases |ts|
  {
    if ts == [] then r else ReadRun(p, seed, m, ReadCycle(p, seed, m, r, ts[0]), ts[1..])
  }

  function ReadBegin(p: Params, seed: nat): ReadSession
  {
    ReadSession(C.CheckerRegs(C.RdAddr, AddressAt(p, 0), DataAt(seed, 0)), AwaitRead, 0, 0, [])
  }

  /** While busy on transfer k the registers hold transfer k and the log holds the reports of
      the transfers already compared (k, or k + 1 once the word of transfer k came back). */
  predicate ReadInv(p: Params, seed: nat, m: Memory, r: ReadSession)
  {
    var k := r.beats;
    Completes(p) && k <= TransferCount(p) && r.log == Mismatches(m, p, seed, k) &&
    (r.regs.state == C.Idle ==> k == TransferCount(p) && r.ends == 1 && r.slave == AwaitRead) &&
    ((r.regs.state == C.RdAddr || r.regs.state == C.RdDat) ==>
       k < TransferCount(p) && r.ends == 0 &&
       r.regs.baseAddr == AddressAt(p, k) && r.regs.recvData == DataAt(seed, k)) &&
    (r.regs.state == C.RdAddr ==> r.slave == AwaitRead) &&
    (r.regs.state == C.RdDat ==> r.slave == Return(Read(m, AddressAt(p, k)))) &&
    (r.regs.state == C.WaitRdAck ==>
       0 < k && r.ends == 0 && r.slave == AwaitRead &&
       r.regs.baseAddr == AddressAt(p, k - 1) && r.regs.recvData == DataAt(seed, k - 1))
  }

  lemma ReadCycleKeeps(p: Params, seed: nat, m: Memory, r: ReadSession, t: ReadTiming)
    requires ReadInv(p, seed, m, r)
    ensures ReadInv(p, seed, m, ReadCycle(p, seed, m, r, t))
  {
    match r.regs.state
    case Idle =>
    case RdAddr =>
    case RdDat => ReadCycleKeepsBeat(p, seed, m, r, t);
    case WaitRdAck => ReadCycleKeepsAdvance(p, seed, m, r, t);
  }

  /** The data beat: its comparison extends the log by the report of transfer k, if any. */
  lemma ReadCycleKeepsBeat(p: Params, seed: nat, m: Memory, r: ReadSession, t: ReadTiming)
    requires ReadInv(p, seed, m, r) && r.regs.state == C.RdDat
    ensures ReadInv(p, seed, m, ReadCycle(p, seed, m, r, t))
  {
    assert Mismatches(m, p, seed, r.beats + 1) == Mismatches(m, p, seed, r.beats) + CheckAt(m, p, seed, r.beats);
  }

  /** WAIT_RD_ACK: the registers move to transfer k, or the session ends after the last. */
  lemma ReadCycleKeepsAdvance(p: Params, seed: nat, m: Memory, r: ReadSession, t: ReadTiming)
    requires ReadInv(p, seed, m, r) && r.regs.state == C.WaitRdAck
    ensures ReadInv(p, seed, m, ReadCycle(p, seed, m, r, t))
  {
    var k := r.beats - 1;
    LastTransfer(p, k);
    AddressAdvance(p, k);
    DataAdvance(seed, k);
    var n := ReadCycle(p, seed, m, r, t);
    assert n.regs == C.CheckerRegs(if k == TransferCount(p) - 1 then C.Idle else C.RdAddr,
                                    AddressAt(p, k + 1), DataAt(seed, k + 1));
  }

  lemma {:induction false} ReadRunKeeps(p: Params, seed: nat, m: Memory, r: ReadSession, ts: seq<ReadTiming>)
    requires ReadInv(p, seed, m, r)
    ensures ReadInv(p, seed, m, ReadRun(p, seed, m, r, ts))
    decreases |ts|
  {
    if ts != [] {
      ReadCycleKeeps(p, seed, m, r, ts[0]);
      ReadRunKeeps(p, seed, m, ReadCycle(p, seed, m, r, ts[0]), ts[1..]);
    }
  }

  /** Check session, for every slave timing: at every point the data_error pulses so far are
      exactly the mismatches of the words read back so far, in address order; end is pulsed at
      most once, the checker is back in IDLE exactly when it was, and by then every word of the
      region has been compared. */
  lemma ReadSessionCorrect(p: Params, seed: nat, m: Memory, ts: seq<ReadTiming>)
    requires Completes(p)
    ensures var r := ReadRun(p, seed, m, ReadBegin(p, seed), ts);
      r.log == Mismatches(m, p, seed, r.beats) && r.beats <= TransferCount(p) &&
      r.ends <= 1 && (r.ends == 1 <==> r.regs.state == C.Idle) &&
      (r.ends == 1 ==> r.log == Mismatches(m, p, seed, TransferCount(p)))
  {
    assert AddressAt(p, 0) == p.initAdr;
    ReadRunKeeps(p, seed, m, ReadBegin(p, seed), ts);
  }

  /** Write with the corrected writer, then check the same session: whatever the slave's
      timing on either run, a finished check reports nothing. */
  lemma WriteThenReadClean(p: Params, seed: nat, m0: Memory, ws: seq<WriteTiming>, rs: seq<ReadTiming>)
    requires Completes(p)
    requires WriteRun(p, seed, WriteBegin(p, seed, m0), ws).ends == 1
    ensures var m := WriteRun(p, seed, WriteBegin(p, seed, m0), ws).mem;
      ReadRun(p, seed, m, ReadBegin(p, seed), rs).log == []
  {
    WriteSessionCorrect(p, seed, m0, ws);
    var m := WriteRun(p, seed, WriteBegin(p, seed, m0), ws).mem;
    ReadSessionCorrect(p, seed, m, rs);
    var r := ReadRun(p, seed, m, ReadBegin(p, seed), rs);
    WriteThenCheckIsClean(m0, p, seed, r.beats);
  }

  /** The same round trip for the writer as written, whose write slave takes the data with the
      address; the check's timing stays arbitrary. */
  lemma WriteThenReadCleanAsWritten(p: Params, seed: nat, m0: Memory, ws: seq<WriteTiming>, rs: seq<ReadTiming>)
    requires Completes(p)
    requires forall j :: 0 <= j < |ws| ==> DataWithAddress(ws[j])
    requires WriteRunAsWritten(p, seed, WriteBegin(p, seed, m0), ws).ends == 1
    ensures var m := WriteRunAsWritten(p, seed, WriteBegin(p, seed, m0), ws).mem;
      ReadRun(p, seed, m, ReadBegin(p, seed), rs).log == []
  {
    WriteSessionAsWrittenCorrect(p, seed, m0, ws);
    var m := WriteRunAsWritten(p, seed, WriteBegin(p, seed, m0), ws).mem;
    ReadSessionCorrect(p, seed, m, rs);
    var r := ReadRun(p, seed, m, ReadBegin(p, seed), rs);
    WriteThenCheckIsClean(m0, p, seed, r.beats);
  }

  lemma {:induction false} ReadRunAppend(p: Params, seed: nat, m: Memory, r: ReadSession, a: seq<ReadTiming>, b: seq<ReadTiming>)
    ensures ReadRun(p, seed, m, r, a + b) == ReadRun(p, seed, m, ReadRun(p, seed, m, r, a), b)
    decreases |a|
  {
    if a != [] {
      assert (a + b)[0] == a[0];
      assert (a + b)[1..] == a[1..] + b;
      ReadRunAppend(p, seed, m, ReadCycle(p, seed, m, r, a[0]), a[1..], b);
    } else {
      assert a + b == b;
    }
  }

  const READ_EAGER := ReadTiming(true, true)

  function ReadPhase(p: Params, seed: nat, m: Memory, k: nat): ReadSession
  {
    ReadSession(C.CheckerRegs(if k < TransferCount(p) then C.RdAddr else C.Idle, AddressAt(p, k), DataAt(seed, k)),
                AwaitRead, k, if k < TransferCount(p) then 0 else 1, Mismatches(m, p, seed, k))
  }

  /** The three cycles of one eager read: address, data beat, advance. */
  lemma ReadEagerCycles(p: Params, seed: nat, m: Memory, k: nat)
    requires Completes(p) && k < TransferCount(p)
    ensures var a, d := AddressAt(p, k), DataAt(seed, k);
      var r1 := ReadCycle(p, seed, m, ReadPhase(p, seed, m, k), READ_EAGER);
      var r2 := ReadCycle(p, seed, m, r1, READ_EAGER);
      r1 == ReadSession(C.CheckerRegs(C.RdDat, a, d), Return(Read(m, a)), k, 0, Mismatches(m, p, seed, k)) &&
      r2 == ReadSession(C.CheckerRegs(C.WaitRdAck, a, d), AwaitRead, k + 1, 0, Mismatches(m, p, seed, k + 1)) &&
      ReadCycle(p, seed, m, r2, READ_EAGER) == ReadPhase(p, seed, m, k + 1)
  {
    LastTransfer(p, k);
    AddressAdvance(p, k);
    DataAdvance(seed, k);
  }

  lemma ReadEagerTransfer(p: Params, seed: nat, m: Memory, k: nat)
    requires Completes(p) && k < TransferCount(p)
    ensures ReadRun(p, seed, m, ReadPhase(p, seed, m, k), Repeat(READ_EAGER, 3)) == ReadPhase(p, seed, m, k + 1)
  {
    ReadEagerCycles(p, seed, m, k);
    var r0 := ReadPhase(p, seed, m, k);
    var r1 := ReadCycle(p, seed, m, r0, READ_EAGER);
    var r2 := ReadCycle(p, seed, m, r1, READ_EAGER);
    var e := [READ_EAGER, READ_EAGER, READ_EAGER];
    assert Repeat(READ_EAGER, 3) == e;
    assert e[1..] == [READ_EAGER, READ_EAGER] && e[1..][1..] == [READ_EAGER];
    assert ReadRun(p, seed, m, r0, e) == ReadRun(p, seed, m, r1, e[1..]);
    assert ReadRun(p, seed, m, r1, e[1..]) == ReadRun(p, seed, m, r2, [READ_EAGER]);
  }

  lemma {:induction false} ReadEagerPhases(p: Params, seed: nat, m: Memory, k: nat)
    requires Completes(p) && k <= TransferCount(p)
    ensures ReadRun(p, seed, m, ReadBegin(p, seed), Repeat(READ_EAGER, 3 * k)) == ReadPhase(p, seed, m, k)
  {
    if k == 0 {
      CountPositive(p);
      assert Repeat(READ_EAGER, 0) == [];
    } else {
      var a := Repeat(READ_EAGER, 3 * (k - 1));
      var b := Repeat(READ_EAGER, 3);
      RepeatAdd(READ_EAGER, 3 * (k - 1), 3);
      assert Repeat(READ_EAGER, 3 * k) == a + b;
      ReadRunAppend(p, seed, m, ReadBegin(p, seed), a, b);
      ReadEagerPhases(p, seed, m, k - 1);
      ReadEagerTransfer(p, seed, m, k - 1);
    }
  }

  /** With an always-ready slave a check takes three cycles per word. */
  lemma ReadEagerEnds(p: Params, seed: nat, m: Memory)
    requires Completes(p)
    ensures var r := ReadRun(p, seed, m, ReadBegin(p, seed), Repeat(READ_EAGER, 3 * TransferCount(p)));
      r.ends == 1 && r.regs.state == C.Idle && r.log == Mismatches(m, p, seed, TransferCount(p))
  {
    ReadEagerPhases(p, seed, m, TransferCount(p));
  }
}
