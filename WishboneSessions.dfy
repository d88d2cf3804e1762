/** Whole Wishbone sessions against an SRAM-like slave: it stores dat_w on every write request
    cycle, returns the word at adr one cycle later, and asserts ack in the cycle after it
    takes a request (never two cycles in a row), possibly after wait states. Because the
    writer's dat_w is a register loaded in WR_DAT, a registered ack is what makes the stored
    word the current one (see WishboneStreamer.StreamerDataLags). */
module WishboneSessions {
  import opened AddressArithmetic
  import opened Transfers
  import WS = WishboneStreamer
  import WC = WishboneChecker

  /** The slave's choice on one cycle: take a pending request now, or insert a wait state. */
  datatype WbTiming = WbTiming(ready: bool)

  // ---------------------------------------------------------------- write side

  /** Writer registers, the slave's ack register, memory, and over the session so far:
      acknowledged writes and end pulses. */
  datatype WbWriteSession = WbWriteSession(regs: WS.StreamerRegs, ack: bool, mem: Memory,
                                           acks: nat, ends: nat)

  function WbWriteCycle(p: Params, seed: nat, w: WbWriteSession, t: WbTiming): WbWriteSession
  {
    var i := WS.StreamerIn(false, w.ack);
    var o := WS.StreamerOutputs(p, w.regs, i);
    var req := o.cyc && o.stb;
    WbWriteSession(WS.StreamerNext(p, seed, w.regs, i),
                   req && !w.ack && t.ready,
                   if req && o.we then w.mem[o.adr := o.datW] else w.mem,
                   w.acks + (if req && w.ack then 1 else 0),
                   w.ends + (if o.end then 1 else 0))
  }

  function WbWriteRun(p: Params, seed: nat, w: WbWriteSession, ts: seq<WbTiming>): WbWriteSession
    decreases |ts|
  {
    if ts == [] then w else WbWriteRun(p, seed, WbWriteCycle(p, seed, w, ts[0]), ts[1..])
  }

  /** The session right after start; dat_w still holds d0, whatever an earlier cycle left. */
  function WbWriteBegin(p: Params, seed: nat, m0: Memory, d0: Data): WbWriteSession
  {
    WbWriteSession(WS.StreamerRegs(WS.WrDat, AddressAt(p, 0), DataAt(seed, 0), 0, d0), false, m0, 0, 0)
  }

  /** While the writer requests transfer k = acks, memory agrees with the first k words
      except perhaps at address k (where an unacknowledged cycle may have stored a stale dat_w),
      and an ack can only be pending once dat_w holds word k. During the pause after
      transfer k - 1 the first k words are in place. */
  predicate WbWriteInv(p: Params, seed: nat, m0: Memory, w: WbWriteSession)
  {
    var k := w.acks;
    Completes(p) && k <= TransferCount(p) &&
    (w.regs.state == WS.Idle ==>
       k == TransferCount(p) && w.ends == 1 && !w.ack && w.mem == Written(m0, p, seed, k)) &&
    (w.regs.state == WS.WrDat ==>
       k < TransferCount(p) && w.ends == 0 && w.regs.delay == 0 &&
       w.regs.baseAddr == AddressAt(p, k) && w.regs.sentData == DataAt(seed, k) &&
       (w.ack ==> w.regs.datW == DataAt(seed, k)) &&
       w.mem - {AddressAt(p, k)} == Written(m0, p, seed, k) - {AddressAt(p, k)}) &&
    (w.regs.state == WS.WaitDelay ==>
       0 < k && w.ends == 0 && !w.ack && w.regs.delay <= WS.LAST_DELAY &&
       w.regs.baseAddr == AddressAt(p, k - 1) && w.regs.sentData == DataAt(seed, k - 1) &&
       w.mem == Written(m0, p, seed, k))
  }

  /** Two maps that agree away from a store agree everywhere once it holds the same value. */
  lemma UpdateAgrees(m1: Memory, m2: Memory, a: Addr, v: Data)
    requires m1 - {a} == m2 - {a}
    ensures m1[a := v] == m2[a := v]
  {
    forall x | x != a
      ensures (x in m1 <==> x in m2) && (x in m1 ==> m1[x] == m2[x])
    {
      assert x in m1 <==> x in m1 - {a};
      assert x in m2 <==> x in m2 - {a};
      if x in m1 {
        assert m1[x] == (m1 - {a})[x];
        assert m2[x] == (m2 - {a})[x];
      }
    }
  }

  lemma WbWriteCycleKeeps(p: Params, seed: nat, m0: Memory, w: WbWriteSession, t: WbTiming)
    requires WbWriteInv(p, seed, m0, w)
    ensures WbWriteInv(p, seed, m0, WbWriteCycle(p, seed, w, t))
  {
    var k := w.acks;
    match w.regs.state
    case Idle =>
    case WrDat =>
      var a := AddressAt(p, k);
      if w.ack {
        UpdateAgrees(w.mem, Written(m0, p, seed, k), a, DataAt(seed, k));
      } else {
        assert w.mem[a := w.regs.datW] - {a} == w.mem - {a};
      }
    case WaitDelay =>
      if w.regs.delay == WS.LAST_DELAY {
        WbWriteCycleKeepsAdvance(p, seed, m0, w, t);
      }
  }

  /** The end of the pause: the registers move to transfer k, or the session ends. */
  lemma WbWriteCycleKeepsAdvance(p: Params, seed: nat, m0: Memory, w: WbWriteSession, t: WbTiming)
    requires WbWriteInv(p, seed, m0, w) && w.regs.state == WS.WaitDelay && w.regs.delay == WS.LAST_DELAY
    ensures WbWriteInv(p, seed, m0, WbWriteCycle(p, seed, w, t))
  {
    var k := w.acks - 1;
    LastTransfer(p, k);
    AddressAdvance(p, k);
    DataAdvance(seed, k);
    var n := WbWriteCycle(p, seed, w, t);
    assert n.regs == WS.StreamerRegs(if k == TransferCount(p) - 1 then WS.Idle else WS.WrDat,
                                     AddressAt(p, k + 1), DataAt(seed, k + 1), 0, w.regs.datW);
  }

  lemma {:induction false} WbWriteRunKeeps(p: Params, seed: nat, m0: Memory, w: WbWriteSession, ts: seq<WbTiming>)
    requires WbWriteInv(p, seed, m0, w)
    ensures WbWriteInv(p, seed, m0, WbWriteRun(p, seed, w, ts))
    decreases |ts|
  {
    if ts != [] {
      WbWriteCycleKeeps(p, seed, m0, w, ts[0]);
      WbWriteRunKeeps(p, seed, m0, WbWriteCycle(p, seed, w, ts[0]), ts[1..]);
    }
  }

  /** Write round trip against the registered-ack slave, for every pattern of wait states and
      whatever dat_w held at start: end is pulsed at most once, exactly when the writer is back
      in IDLE, and by then the memory is m0 with the whole pattern written. */
  lemma WbWriteSessionCorrect(p: Params, seed: nat, m0: Memory, d0: Data, ts: seq<WbTiming>)
    requires Completes(p)
    ensures var w := WbWriteRun(p, seed, WbWriteBegin(p, seed, m0, d0), ts);
      w.ends <= 1 && (w.ends == 1 <==> w.regs.state == WS.Idle) && w.acks <= TransferCount(p) &&
      (w.ends == 1 ==> w.acks == TransferCount(p) && w.mem == Written(m0, p, seed, TransferCount(p)))
  {
    assert AddressAt(p, 0) == p.initAdr;
    WbWriteRunKeeps(p, seed, m0, WbWriteBegin(p, seed, m0, d0), ts);
  }

  lemma {:induction false} WbWriteRunAppend(p: Params, seed: nat, w: WbWriteSession, a: seq<WbTiming>, b: seq<WbTiming>)
    ensures WbWriteRun(p, seed, w, a + b) == WbWriteRun(p, seed, WbWriteRun(p, seed, w, a), b)
    decreases |a|
  {
    if a != [] {
      assert (a + b)[0] == a[0];
      assert (a + b)[1..] == a[1..] + b;
      WbWriteRunAppend(p, seed, WbWriteCycle(p, seed, w, a[0]), a[1..], b);
    } else {
      assert a + b == b;
    }
  }

  /** A slave without wait states. */
  const WB_EAGER := WbTiming(true)

  /** Where a session without wait states is after k transfers. */
  function WbWritePhase(p: Params, seed: nat, m0: Memory, d0: Data, k: nat): WbWriteSession
  {
    WbWriteSession(WS.StreamerRegs(if k < TransferCount(p) then WS.WrDat else WS.Idle, AddressAt(p, k),
                                   DataAt(seed, k), 0, if k == 0 then d0 else DataAt(seed, k - 1)),
                   false, Written(m0, p, seed, k), k, if k < TransferCount(p) then 0 else 1)
  }

  /** The pause only counts, whatever the slave does. */
  lemma {:induction false} WbPauseCounts(p: Params, seed: nat, w: WbWriteSession, j: nat)
    requires w.regs.state == WS.WaitDelay && !w.ack && w.regs.delay + j <= WS.LAST_DELAY
    ensures WbWriteRun(p, seed, w, Repeat(WB_EAGER, j)) == w.(regs := w.regs.(delay := w.regs.delay + j))
  {
    if j == 0 {
      assert Repeat(WB_EAGER, 0) == [];
    } else {
      WbPauseCounts(p, seed, w, j - 1);
      WbWriteRunAppend(p, seed, w, Repeat(WB_EAGER, j - 1), [WB_EAGER]);
      var v := WbWriteRun(p, seed, w, Repeat(WB_EAGER, j - 1));
      assert WbWriteRun(p, seed, v, [WB_EAGER]) == WbWriteCycle(p, seed, v, WB_EAGER);
    }
  }

  /** Without wait states one transfer takes 13 cycles: a request cycle, the ack cycle, and
      the 11-cycle pause. */
  /** The request cycle and the ack cycle: the word is stored and the pause begins. */
  lemma WbWriteEagerAck(p: Params, seed: nat, m0: Memory, d0: Data, k: nat)
    requires Completes(p) && k < TransferCount(p)
    ensures var w2 := WbWriteRun(p, seed, WbWritePhase(p, seed, m0, d0, k), Repeat(WB_EAGER, 2));
      w2 == WbWriteSession(WS.StreamerRegs(WS.WaitDelay, AddressAt(p, k), DataAt(seed, k), 0, DataAt(seed, k)),
                           false, Written(m0, p, seed, k + 1), k + 1, 0)
  {
    var w0 := WbWritePhase(p, seed, m0, d0, k);
    var w1 := WbWriteCycle(p, seed, w0, WB_EAGER);
    assert Repeat(WB_EAGER, 2) == [WB_EAGER, WB_EAGER];
    assert WbWriteRun(p, seed, w0, [WB_EAGER, WB_EAGER]) == WbWriteRun(p, seed, w1, [WB_EAGER]);
  }

  /** The last pause cycle moves to the next address and word. */
  lemma WbWriteEagerResume(p: Params, seed: nat, m0: Memory, d0: Data, k: nat)
    requires Completes(p) && k < TransferCount(p)
    ensures var w := WbWriteSession(WS.StreamerRegs(WS.WaitDelay, AddressAt(p, k), DataAt(seed, k), WS.LAST_DELAY,
                                                    DataAt(seed, k)), false, Written(m0, p, seed, k + 1), k + 1, 0);
      WbWriteCycle(p, seed, w, WB_EAGER) == WbWritePhase(p, seed, m0, d0, k + 1)
  {
    LastTransfer(p, k);
    AddressAdvance(p, k);
    DataAdvance(seed, k);
  }

  /** Without wait states one transfer takes 13 cycles: a request cycle, the ack cycle, and
      the 11-cycle pause. */
  lemma WbWriteEagerTransfer(p: Params, seed: nat, m0: Memory, d0: Data, k: nat)
    requires Completes(p) && k < TransferCount(p)
    ensures WbWriteRun(p, seed, WbWritePhase(p, seed, m0, d0, k), Repeat(WB_EAGER, 13)) ==
      WbWritePhase(p, seed, m0, d0, k + 1)
  {
    var w0 := WbWritePhase(p, seed, m0, d0, k);
    WbWriteEagerAck(p, seed, m0, d0, k);
    var w2 := WbWriteRun(p, seed, w0, Repeat(WB_EAGER, 2));
    WbPauseCounts(p, seed, w2, 10);
    var w12 := WbWriteRun(p, seed, w2, Repeat(WB_EAGER, 10));
    WbWriteEagerResume(p, seed, m0, d0, k);
    RepeatAdd(WB_EAGER, 2, 11);
    RepeatAdd(WB_EAGER, 10, 1);
    assert Repeat(WB_EAGER, 1) == [WB_EAGER];
    WbWriteRunAppend(p, seed, w0, Repeat(WB_EAGER, 2), Repeat(WB_EAGER, 11));
    WbWriteRunAppend(p, seed, w2, Repeat(WB_EAGER, 10), Repeat(WB_EAGER, 1));
    assert WbWriteRun(p, seed, w12, [WB_EAGER]) == WbWriteCycle(p, seed, w12, WB_EAGER);
  }

  lemma {:induction false} WbWriteEagerPhases(p: Params, seed: nat, m0: Memory, d0: Data, k: nat)
    requires Completes(p) && k <= TransferCount(p)
    ensures WbWriteRun(p, seed, WbWriteBegin(p, seed, m0, d0), Repeat(WB_EAGER, 13 * k)) ==
      WbWritePhase(p, seed, m0, d0, k)
  {
    if k == 0 {
      CountPositive(p);
      assert Repeat(WB_EAGER, 0) == [];
    } else {
      var a := Repeat(WB_EAGER, 13 * (k - 1));
      var b := Repeat(WB_EAGER, 13);
      RepeatAdd(WB_EAGER, 13 * (k - 1), 13);
      assert Repeat(WB_EAGER, 13 * k) == a + b;
      WbWriteRunAppend(p, seed, WbWriteBegin(p, seed, m0, d0), a, b);
      WbWriteEagerPhases(p, seed, m0, d0, k - 1);
      WbWriteEagerTransfer(p, seed, m0, d0, k - 1);
    }
  }

  /** Without wait states a write session ends after 13 cycles per word. */
  lemma WbWriteEagerEnds(p: Params, seed: nat, m0: Memory, d0: Data)
    requires Completes(p)
    ensures var w := WbWriteRun(p, seed, WbWriteBegin(p, seed, m0, d0), Repeat(WB_EAGER, 13 * TransferCount(p)));
      w.ends == 1 && w.regs.state == WS.Idle && w.mem == Written(m0, p, seed, TransferCount(p))
  {
    WbWriteEagerPhases(p, seed, m0, d0, TransferCount(p));
  }

  // ----------------------------------------------------------------- read side

  /** Checker registers, the slave's ack and read-data registers, and over the session so far:
      acknowledged reads, end pulses and the diagnostic of every data_error pulse. */
  datatype WbReadSession = WbReadSession(regs: WC.CheckerRegs, ack: bool, rdata: Data,
                                         beats: nat, ends: nat, log: seq<Report>)

  function WbReadCycle(p: Params, seed: nat, m: Memory, r: WbReadSession, t: WbTiming): WbReadSession
  {
    var i := WC.CheckerIn(false, r.ack, r.rdata);
    var o := WC.CheckerOutputs(p, r.regs, i);
    var req := o.cyc && o.stb;
    WbReadSession(WC.CheckerNext(p, seed, r.regs, i),
                  req && !r.ack && t.ready,
                  Read(m, o.adr),
                  r.beats + (if req && r.ack then 1 else 0),
                  r.ends + (if o.end then 1 else 0),
                  r.log + (if o.dataError then [Report(o.adr, i.datR, r.regs.recvData)] else []))
  }

  function WbReadRun(p: Params, seed: nat, m: Memory, r: WbReadSession, ts: seq<WbTiming>): WbReadSession
    decreases |ts|
  {
    if ts == [] then r else WbReadRun(p, seed, m, WbReadCycle(p, seed, m, r, ts[0]), ts[1..])
  }

  /** The session right after start; the read-data register holds whatever it held. */
  function WbReadBegin(p: Params, seed: nat, d0: Data): WbReadSession
  {
    WbReadSession(WC.CheckerRegs(WC.RdDat, AddressAt(p, 0), DataAt(seed, 0)), false, d0, 0, 0, [])
  }

  predicate WbReadInv(p: Params, seed: nat, m: Memory, r: WbReadSession)
  {
    var k := r.beats;
    Completes(p) && k <= TransferCount(p) && r.log == Mismatches(m, p, seed, k) &&
    (r.regs.state == WC.Idle ==> k == TransferCount(p) && r.ends == 1 && !r.ack) &&
    (r.regs.state == WC.RdDat ==>
       k < TransferCount(p) && r.ends == 0 &&
       r.regs.baseAddr == AddressAt(p, k) && r.regs.recvData == DataAt(seed, k) &&
       (r.ack ==> r.rdata == Read(m, AddressAt(p, k)))) &&
    (r.regs.state == WC.WaitRdAck ==>
       0 < k && r.ends == 0 && !r.ack &&
       r.regs.baseAddr == AddressAt(p, k - 1) && r.regs.recvData == DataAt(seed, k - 1))
  }

  lemma WbReadCycleKeeps(p: Params, seed: nat, m: Memory, r: WbReadSession, t: WbTiming)
    requires WbReadInv(p, seed, m, r)
    ensures WbReadInv(p, seed, m, WbReadCycle(p, seed, m, r, t))
  {
    match r.regs.state
    case Idle =>
    case RdDat => WbReadCycleKeepsBeat(p, seed, m, r, t);
    case WaitRdAck => WbReadCycleKeepsAdvance(p, seed, m, r, t);
  }

  /** The data beat: its comparison extends the log by the report of transfer k, if any. */
  lemma WbReadCycleKeepsBeat(p: Params, seed: nat, m: Memory, r: WbReadSession, t: WbTiming)
    requires WbReadInv(p, seed, m, r) && r.regs.state == WC.RdDat
    ensures WbReadInv(p, seed, m, WbReadCycle(p, seed, m, r, t))
  {
    assert Mismatches(m, p, seed, r.beats + 1) == Mismatches(m, p, seed, r.beats) + CheckAt(m, p, seed, r.beats);
  }

  /** WAIT_RD_ACK: the registers move to transfer k, or the session ends after the last. */
  lemma WbReadCycleKeepsAdvance(p: Params, seed: nat, m: Memory, r: WbReadSession, t: WbTiming)
    requires WbReadInv(p, seed, m, r) && r.regs.state == WC.WaitRdAck
    ensures WbReadInv(p, seed, m, WbReadCycle(p, seed, m, r, t))
  {
    var k := r.beats - 1;
    LastTransfer(p, k);
    AddressAdvance(p, k);
    DataAdvance(seed, k);
    var n := WbReadCycle(p, seed, m, r, t);
    assert n.regs == WC.CheckerRegs(if k == TransferCount(p) - 1 then WC.Idle else WC.RdDat,
                                    AddressAt(p, k + 1), DataAt(seed, k + 1));
  }

  lemma {:induction false} WbReadRunKeeps(p: Params, seed: nat, m: Memory, r: WbReadSession, ts: seq<WbTiming>)
    requires WbReadInv(p, seed, m, r)
    ensures WbReadInv(p, seed, m, WbReadRun(p, seed, m, r, ts))
    decreases |ts|
  {
    if ts != [] {
      WbReadCycleKeeps(p, seed, m, r, ts[0]);
      WbReadRunKeeps(p, seed, m, WbReadCycle(p, seed, m, r, ts[0]), ts[1..]);
    }
  }

  /** Check session, for every pattern of wait states: the data_error pulses so far are exactly
      the mismatches of the words acknowledged so far, in address order, each reported with
      the address on the bus, the word seen and the word expected; end is pulsed at most once,
      exactly when the checker is back in IDLE. */
  lemma WbReadSessionCorrect(p: Params, seed: nat, m: Memory, d0: Data, ts: seq<WbTiming>)
    requires Completes(p)
    ensures var r := WbReadRun(p, seed, m, WbReadBegin(p, seed, d0), ts);
      r.log == Mismatches(m, p, seed, r.beats) && r.beats <= TransferCount(p) &&
      r.ends <= 1 && (r.ends == 1 <==> r.regs.state == WC.Idle) &&
      (r.ends == 1 ==> r.log == Mismatches(m, p, seed, TransferCount(p)))
  {
    assert AddressAt(p, 0) == p.initAdr;
    WbReadRunKeeps(p, seed, m, WbReadBegin(p, seed, d0), ts);
  }

  /** Write, then check the same session over the same slave: a check reports nothing. */
  lemma WbWriteThenReadClean(p: Params, seed: nat, m0: Memory, d0: Data, d1: Data, ws: seq<WbTiming>, rs: seq<WbTiming>)
    requires Completes(p)
    requires WbWriteRun(p, seed, WbWriteBegin(p, seed, m0, d0), ws).ends == 1
    ensures var m := WbWriteRun(p, seed, WbWriteBegin(p, seed, m0, d0), ws).mem;
      WbReadRun(p, seed, m, WbReadBegin(p, seed, d1), rs).log == []
  {
    WbWriteSessionCorrect(p, seed, m0, d0, ws);
    var m := WbWriteRun(p, seed, WbWriteBegin(p, seed, m0, d0), ws).mem;
    WbReadSessionCorrect(p, seed, m, d1, rs);
    WriteThenCheckIsClean(m0, p, seed, WbReadRun(p, seed, m, WbReadBegin(p, seed, d1), rs).beats);
  }

  lemma {:induction false} WbReadRunAppend(p: Params, seed: nat, m: Memory, r: WbReadSession, a: seq<WbTiming>, b: seq<WbTiming>)
    ensures WbReadRun(p, seed, m, r, a + b) == WbReadRun(p, seed, m, WbReadRun(p, seed, m, r, a), b)
    decreases |a|
  {
    if a != [] {
      assert (a + b)[0] == a[0];
      assert (a + b)[1..] == a[1..] + b;
      WbReadRunAppend(p, seed, m, WbReadCycle(p, seed, m, r, a[0]), a[1..], b);
    } else {
      assert a + b == b;
    }
  }

  /** Where a check without wait states is after k transfers (the read-data register holds
      the word at address 0, read while the checker paused in WAIT_RD_ACK, or d0 at first). */
  function WbReadPhase(p: Params, seed: nat, m: Memory, d0: Data, k: nat): WbReadSession
  {
    WbReadSession(WC.CheckerRegs(if k < TransferCount(p) then WC.RdDat else WC.Idle, AddressAt(p, k), DataAt(seed, k)),
                  false, if k == 0 then d0 else Read(m, 0), k, if k < TransferCount(p) then 0 else 1,
                  Mismatches(m, p, seed, k))
  }

  /** The three cycles of one check without wait states, one at a time. */
  lemma WbReadEagerCycles(p: Params, seed: nat, m: Memory, d0: Data, k: nat)
    requires Completes(p) && k < TransferCount(p)
    ensures var a, d := AddressAt(p, k), DataAt(seed, k);
      var r0 := WbReadPhase(p, seed, m, d0, k);
      var r1 := WbReadCycle(p, seed, m, r0, WB_EAGER);
      var r2 := WbReadCycle(p, seed, m, r1, WB_EAGER);
      r1 == r0.(ack := true, rdata := Read(m, a)) &&
      r2 == WbReadSession(WC.CheckerRegs(WC.WaitRdAck, a, d), false, Read(m, a), k + 1, 0,
                          Mismatches(m, p, seed, k + 1)) &&
      WbReadCycle(p, seed, m, r2, WB_EAGER) == WbReadPhase(p, seed, m, d0, k + 1)
  {
    LastTransfer(p, k);
    AddressAdvance(p, k);
    DataAdvance(seed, k);
  }

  /** Without wait states one check takes 3 cycles: request, ack, and WAIT_RD_ACK. */
  lemma WbReadEagerTransfer(p: Params, seed: nat, m: Memory, d0: Data, k: nat)
    requires Completes(p) && k < TransferCount(p)
    ensures WbReadRun(p, seed, m, WbReadPhase(p, seed, m, d0, k), Repeat(WB_EAGER, 3)) == WbReadPhase(p, seed, m, d0, k + 1)
  {
    WbReadEagerCycles(p, seed, m, d0, k);
    var r0 := WbReadPhase(p, seed, m, d0, k);
    var r1 := WbReadCycle(p, seed, m, r0, WB_EAGER);
    var r2 := WbReadCycle(p, seed, m, r1, WB_EAGER);
    var e := [WB_EAGER, WB_EAGER, WB_EAGER];
    assert Repeat(WB_EAGER, 3) == e;
    assert e[1..] == [WB_EAGER, WB_EAGER] && e[1..][1..] == [WB_EAGER];
    assert WbReadRun(p, seed, m, r0, e) == WbReadRun(p, seed, m, r1, e[1..]);
    assert WbReadRun(p, seed, m, r1, e[1..]) == WbReadRun(p, seed, m, r2, [WB_EAGER]);
  }

  lemma {:induction false} WbReadEagerPhases(p: Params, seed: nat, m: Memory, d0: Data, k: nat)
    requires Completes(p) && k <= TransferCount(p)
    ensures WbReadRun(p, seed, m, WbReadBegin(p, seed, d0), Repeat(WB_EAGER, 3 * k)) == WbReadPhase(p, seed, m, d0, k)
  {
    if k == 0 {
      CountPositive(p);
      assert Repeat(WB_EAGER, 0) == [];
    } else {
      var a := Repeat(WB_EAGER, 3 * (k - 1));
      var b := Repeat(WB_EAGER, 3);
      RepeatAdd(WB_EAGER, 3 * (k - 1), 3);
      assert Repeat(WB_EAGER, 3 * k) == a + b;
      WbReadRunAppend(p, seed, m, WbReadBegin(p, seed, d0), a, b);
      WbReadEagerPhases(p, seed, m, d0, k - 1);
      WbReadEagerTransfer(p, seed, m, d0, k - 1);
    }
  }

  /** Without wait states a check session ends after 3 cycles per word. */
  lemma WbReadEagerEnds(p: Params, seed: nat, m: Memory, d0: Data)
    requires Completes(p)
    ensures var r := WbReadRun(p, seed, m, WbReadBegin(p, seed, d0), Repeat(WB_EAGER, 3 * TransferCount(p)));
      r.ends == 1 && r.regs.state == WC.Idle && r.log == Mismatches(m, p, seed, TransferCount(p))
  {
    WbReadEagerPhases(p, seed, m, d0, TransferCount(p));
  }
}
