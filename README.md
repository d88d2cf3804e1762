# 64-bit addressing traffic test, modelled in Dafny

This project models the LiteX simulation test of 64-bit bus addressing. The test builds
two SRAM regions. One sits above 4 GiB, at 0x4_0000_0000, and one below it, at 0x2_0000.
Four traffic stages run one after the other, each started by the end of the one before:

1. a writer fills the high region with an incrementing pattern seeded 0x12345678;
2. a writer fills the low region with a pattern seeded 0xCAFEBEBE;
3. a checker reads the high region back and compares it;
4. a checker reads the low region back and compares it.

The end of the last checker calls Finish. A checker that sees a wrong word pulses
`data_error`. Its debug hook then prints a diagnostic, and a watchdog calls Finish 128
cycles later.

The stages come in two bus flavours:

- `AXIPacketStreamer` / `AXIPacketChecker` are AXI-Lite masters that work in byte
  addressing.
- `WishbonePacketStreamer` / `WishbonePacketChecker` are Wishbone masters that work in
  byte or word addressing. `WishbonetPacketStreamer` / `WishbonetPacketChecker` are the
  same classes; their only difference is that the bus attribute is named `wb`.

Modules:

- `AddressArithmetic`: register widths and wrap-around, the parameter derivation
  (`_init_adr`, `_incr_adr`, `_max_len`), the address and data of transfer k, and the
  completion test `base_addr == init_adr + max_len - incr_adr`.
- `Transfers`: the transaction-level meaning of a session. It gives the memory a writer
  leaves behind (`Written`) and the mismatch reports a checker produces (`Mismatches`).
- `AxiLiteStreamer`, `AxiLiteChecker`, `WishboneStreamer`, `WishboneChecker`: one module
  per FSM. Each has:
  - pure one-cycle functions for the combinational outputs (`*Outputs`) and for the
    registers after the clock edge (`*Next`);
  - a class holding the registers, whose `Step` method updates them in place and is
    proved equal to those functions.
- `AxiLiteSessions`, `WishboneSessions`: each stage runs cycle by cycle against a bus slave
  whose readiness on every cycle is an arbitrary input. The theorems say:
  - whatever that timing, a writer that ends has written exactly `Written`, and pulses
    end once;
  - a checker logs exactly `Mismatches` for the words read so far, in address order;
  - with an always-ready slave both end after a fixed number of cycles per word.
- `Pipeline`: the end→start wiring and the RESET / WAIT-END-CHECK top FSM. For every
  timing of the stages' end pulses, it proves that:
  - at most one stage is busy;
  - the stages start in order and once each;
  - Finish comes at most once, after all four.
- `Debug`: the diagnostic format string built from the register widths, and the
  128-cycle timeline watchdog, both as a function and as a class.
- `SimSoC`:
  - the endpoint selection assert;
  - the two simulation SoCs as classes whose `Step` runs all four stages and both
    watchdogs for one cycle, and keeps the concrete state in step with `Pipeline`.

The bus-side inputs of each cycle (ready, ack, read data) are parameters. The interconnect,
the SRAMs, the clock and the simulator are not modelled as code.

The model follows the code on these points:

- `data_error` is a combinational one-cycle pulse on the mismatching beat, not a sticky
  flag.
- The diagnostic prints the observed word before the expected one.
- The stage constructors take no addressing-mode error path: they only distinguish "byte"
  from everything else.
- The AXI-Lite writer class, and the AXI-Lite SoC built from it, drive `w.data` as the code
  does: 0 in WAIT_DAT. The session theorems cover this writer for slaves that take the data
  with the address (`WriteSessionAsWrittenCorrect`). For slaves that take the address first,
  they cover the corrected writer (`WriteSessionCorrect`); see "## Findings".

## Model

| member | source | states |
|---|---|---|
| `AddressArithmetic.Wrap64` | axi64bitsSRAMAccess.py:54 | assigning to the 64-bit base_addr register keeps values below 2^64 unchanged |
| `AddressArithmetic.Wrap32` | axi64bitsSRAMAccess.py:55 | assigning to the 32-bit data register keeps values below 2^32 unchanged |
| `AddressArithmetic.Derive` | utils.py:32-34 | byte mode steps by 4 and keeps init_adr and max_len; word mode steps by 1 with init_adr and max_len the byte quantities rounded down to words; both modes make max_len // 4 transfers |
| `AddressArithmetic.CompletesByMode` | axi64bitsSRAMAccess.py:48-50 | which (mode, init_adr, max_len) meet Completes: the length is a positive multiple of the step and the range does not pass 2^64; both directions of the iff |
| `AddressArithmetic.WrappingEndExcluded` | axi64bitsSRAMAccess.py:95 | Completes is not necessary for the completion test: two byte-mode sessions whose addresses pass 2^64 still meet it |
| `AddressArithmetic.AddressAdvance` | axi64bitsSRAMAccess.py:93 | base_addr + _incr_adr (mod 2^64) moves the address from transfer k to k + 1 |
| `AddressArithmetic.DataAdvance` | axi64bitsSRAMAccess.py:94 | sent_data + 1 (mod 2^32) moves the word from transfer k to k + 1 |
| `AddressArithmetic.NoWrap` | axi64bitsSRAMAccess.py:93 | before the end of a completing session the address register never wraps |
| `AddressArithmetic.LastTransfer` | axi64bitsSRAMAccess.py:95-100 | the completion test holds on transfer k if and only if k is the last of the max_len / incr transfers |
| `AddressArithmetic.CountPositive` | axi64bitsSRAMAccess.py:95 | a session that meets the completion test makes at least one transfer |
| `AddressArithmetic.AddressesInRegion` | axi64bitsSRAMAccess.py:60-100 | every address of a completing session lies in [init_adr, init_adr + max_len) |
| `AddressArithmetic.AddressesDistinct` | axi64bitsSRAMAccess.py:60-100 | the addresses of a session strictly increase, so no word is visited twice |
| `AddressArithmetic.ByteMisalignedNeverEnds` | axi64bitsSRAMAccess.py:95 | in byte mode a max_len that is not a multiple of 4 never meets the completion test, whatever the wrap-around |
| `AddressArithmetic.DefaultSessions` | axi64bitsSRAMAccess.py:270-276 | the derived parameters, count, last address and last words of the configured sessions, all four of which meet Completes |
| `Transfers.Mismatches` | axi64bitsSRAMAccess.py:146-154 | a checker reports at most one mismatch per transfer |
| `Transfers.WrittenHolds` | axi64bitsSRAMAccess.py:67-101 | after the first k transfers, address j < k holds word j of the session |
| `Transfers.WrittenOutside` | axi64bitsSRAMAccess.py:67-101 | a writer session changes no word outside its region |
| `Transfers.WriteThenCheckIsClean` | axi64bitsSRAMAccess.py:146-154 | reading back a completed write of the same parameters and seed reports nothing |
| `Transfers.SingleFaultReported` | axi64bitsSRAMAccess.py:146-154 | a memory wrong in exactly one word gives exactly one report, with that address and the observed and expected words |
| `Transfers.NoneBefore` | axi64bitsSRAMAccess.py:146-154 | words that all match give no report |
| `Transfers.DisjointSessionsCheckClean` | axi64bitsSRAMAccess.py:257-287 | the high then the low writer, then both checkers: two disjoint regions both check clean |
| `Transfers.DefaultRunCheckClean` | axi64bitsSRAMAccess.py:266-287 | with the configured regions and seeds the whole run reports no mismatch, in both modes |
| `AxiLiteStreamer.StreamerIdleRestarts` | axi64bitsSRAMAccess.py:60-66 | IDLE reloads base_addr and sent_data, so what follows depends only on start |
| `AxiLiteStreamer.StreamerAdvancesOnlyOnResponse` | axi64bitsSRAMAccess.py:67-101 | address and data move only on b.valid in WAIT_B, by _incr_adr and 1 |
| `AxiLiteStreamer.StreamerDataAloneNotTracked` | axi64bitsSRAMAccess.py:67-80 | w.ready without aw.ready keeps WR_DAT-ADR and the same beat on w |
| `AxiLiteStreamer.StreamerWaitDatSendsZero` | axi64bitsSRAMAccess.py:81-88 | as written, WAIT_DAT raises w.valid with w.data 0 instead of sent_data |
| `AxiLiteStreamer.StreamerAsWrittenDiffersOnlyInData` | axi64bitsSRAMAccess.py:81-88 | the writer as written and the corrected one drive the same outputs outside WAIT_DAT; in WAIT_DAT they differ only in w.data |
| `AxiLiteStreamer.StreamerDiscipline` | axi64bitsSRAMAccess.py:60-101 | end only from a busy writer, which then goes idle; busy next iff started from IDLE or no end; the as-written and corrected writers pulse the same end |
| `AxiLiteStreamer.AXIPacketStreamer.constructor` | axi64bitsSRAMAccess.py:34-58 | derived parameters from the arguments, registers reset, state IDLE |
| `AxiLiteStreamer.AXIPacketStreamer.Step` | axi64bitsSRAMAccess.py:60-101 | outputs are those of the code as written (w.data 0 in WAIT_DAT) and the new registers those of the next-state function |
| `AxiLiteChecker.CheckerMismatchOnlyFlags` | axi64bitsSRAMAccess.py:146-154 | data_error iff r.valid in RD_DAT with a word different from recv_data; r.data never changes the next state or end |
| `AxiLiteChecker.CheckerIdleRestarts` | axi64bitsSRAMAccess.py:132-138 | IDLE reloads base_addr and recv_data |
| `AxiLiteChecker.CheckerDiscipline` | axi64bitsSRAMAccess.py:132-164 | end only from a busy checker, which then goes idle; busy next iff started or no end |
| `AxiLiteChecker.AXIPacketChecker.constructor` | axi64bitsSRAMAccess.py:105-130 | derived parameters, registers reset, state IDLE |
| `AxiLiteChecker.AXIPacketChecker.Step` | axi64bitsSRAMAccess.py:132-164 | outputs and new registers are those of the one-cycle functions |
| `AxiLiteSessions.SlowDataStoresZero` | axi64bitsSRAMAccess.py:81-88 | a slave taking the address one cycle before the data stores 0 as written and init_val once corrected |
| `AxiLiteSessions.WriteCycleKeeps` | axi64bitsSRAMAccess.py:60-101 | one cycle of writer and slave keeps the session invariant |
| `AxiLiteSessions.WriteCycleKeepsResponse` | axi64bitsSRAMAccess.py:89-100 | the cycle of the write response keeps the invariant: the registers move to the next transfer, or to IDLE after the last |
| `AxiLiteSessions.WriteRunKeeps` | axi64bitsSRAMAccess.py:60-101 | any number of cycles keep it |
| `AxiLiteSessions.WriteSessionCorrect` | axi64bitsSRAMAccess.py:60-101 | for every slave timing: end at most once, exactly when idle again; once ended, every transfer written and the memory is Written |
| `AxiLiteSessions.WriteRunAsWrittenAgrees` | axi64bitsSRAMAccess.py:60-101 | against a slave that takes the data with the address, the writer as written never reaches WAIT_DAT and runs exactly as the corrected one |
| `AxiLiteSessions.WriteSessionAsWrittenCorrect` | axi64bitsSRAMAccess.py:60-101 | the writer as written, for every timing of such a slave: end at most once, exactly when idle again; once ended, every transfer written and the memory is Written |
| `AxiLiteSessions.WriteEagerTransfer` | axi64bitsSRAMAccess.py:67-101 | an always-ready slave completes one transfer in 2 cycles |
| `AxiLiteSessions.WriteEagerPhases` | axi64bitsSRAMAccess.py:67-101 | 2k always-ready cycles complete k transfers |
| `AxiLiteSessions.WriteEagerEnds` | axi64bitsSRAMAccess.py:67-101 | an always-ready write session ends in 2 × count cycles with the full pattern written |
| `AxiLiteSessions.ReadCycleKeeps` | axi64bitsSRAMAccess.py:132-164 | one cycle of checker and slave keeps the read invariant |
| `AxiLiteSessions.ReadCycleKeepsBeat` | axi64bitsSRAMAccess.py:146-154 | a cycle in RD_DAT keeps the read invariant: an accepted beat adds the report of its transfer, if any |
| `AxiLiteSessions.ReadCycleKeepsAdvance` | axi64bitsSRAMAccess.py:155-164 | a cycle in WAIT_RD_ACK keeps the read invariant: the registers move to the next transfer, or to IDLE after the last |
| `AxiLiteSessions.ReadRunKeeps` | axi64bitsSRAMAccess.py:132-164 | any number of cycles keep it |
| `AxiLiteSessions.ReadSessionCorrect` | axi64bitsSRAMAccess.py:132-164 | for every timing the log is Mismatches of the beats so far; end at most once, exactly when idle; once ended, the log covers every transfer |
| `AxiLiteSessions.WriteThenReadClean` | axi64bitsSRAMAccess.py:299-303 | reading after a completed write by the corrected writer of the same session logs nothing, whatever both timings |
| `AxiLiteSessions.WriteThenReadCleanAsWritten` | axi64bitsSRAMAccess.py:299-303 | reading after a completed write by the writer as written, against a write slave that takes the data with the address, logs nothing, whatever the read timing |
| `AxiLiteSessions.ReadEagerTransfer` | axi64bitsSRAMAccess.py:139-164 | an always-ready slave completes one read in 3 cycles |
| `AxiLiteSessions.ReadEagerCycles` | axi64bitsSRAMAccess.py:139-164 | the three always-ready cycles of one read: address accepted, beat compared and logged, registers advanced |
| `AxiLiteSessions.ReadEagerPhases` | axi64bitsSRAMAccess.py:139-164 | 3k always-ready cycles complete k reads |
| `AxiLiteSessions.ReadEagerEnds` | axi64bitsSRAMAccess.py:132-164 | an always-ready read session ends in 3 × count cycles with the full mismatch log |
| `WishboneStreamer.StreamerDelayCounts` | utils.py:64-69 | below 10 the delay state only counts and changes nothing else, whatever the bus |
| `WishboneStreamer.StreamerPausesElevenCycles` | utils.py:53-77 | after an ack exactly 11 cycles in WAIT_DELAY, the last advancing one transfer and ending or requesting the next write |
| `WishboneStreamer.StreamerDataLags` | utils.py:45-63 | dat_w lags one cycle behind sent_data on entering WR_DAT |
| `WishboneStreamer.StreamerIdleRestarts` | utils.py:45-52 | IDLE reloads base_addr, sent_data and delay |
| `WishboneStreamer.StreamerDiscipline` | utils.py:45-77 | end only from a busy writer, which then goes idle; busy next iff started or no end |
| `WishboneStreamer.WishbonePacketStreamer.constructor` | utils.py:21-44 | derived parameters, registers reset, state IDLE |
| `WishboneStreamer.WishbonePacketStreamer.Step` | utils.py:45-77 | outputs and new registers are those of the one-cycle functions, the later NextValue of delay winning |
| `WishboneChecker.CheckerMismatchOnlyFlags` | utils.py:112-124 | data_error iff ack in RD_DAT with dat_r different from recv_data; dat_r never changes the next state or end |
| `WishboneChecker.CheckerIdleRestarts` | utils.py:105-111 | IDLE reloads base_addr and recv_data |
| `WishboneChecker.CheckerDiscipline` | utils.py:105-135 | end only from a busy checker, which then goes idle; busy next iff started or no end |
| `WishboneChecker.WishbonePacketChecker.constructor` | utils.py:79-104 | derived parameters, registers reset, state IDLE |
| `WishboneChecker.WishbonePacketChecker.Step` | utils.py:105-135 | outputs and new registers are those of the one-cycle functions |
| `WishboneSessions.WbWriteCycleKeeps` | utils.py:45-77 | one cycle of writer and SRAM slave keeps the session invariant |
| `WishboneSessions.WbWriteCycleKeepsAdvance` | utils.py:64-77 | the last pause cycle keeps the invariant: the registers move to the next transfer, or to IDLE after the last |
| `WishboneSessions.WbWriteRunKeeps` | utils.py:45-77 | any number of cycles keep it |
| `WishboneSessions.WbWriteSessionCorrect` | utils.py:45-77 | for every ready timing: end at most once, exactly when idle; once ended, every word acked and the memory is Written |
| `WishboneSessions.WbPauseCounts` | utils.py:64-69 | with an idle slave the pause only counts up |
| `WishboneSessions.WbWriteEagerTransfer` | utils.py:53-77 | an always-ready slave completes one write in 13 cycles |
| `WishboneSessions.WbWriteEagerAck` | utils.py:53-63 | the request and ack cycles store the word and enter WAIT_DELAY with the delay at 0 |
| `WishboneSessions.WbWriteEagerResume` | utils.py:64-77 | the pause cycle with the delay at 10 moves to the next write or ends |
| `WishboneSessions.WbWriteEagerPhases` | utils.py:53-77 | 13k always-ready cycles complete k writes |
| `WishboneSessions.WbWriteEagerEnds` | utils.py:45-77 | an always-ready write session ends in 13 × count cycles with the full pattern written |
| `WishboneSessions.WbReadCycleKeeps` | utils.py:105-135 | one cycle of checker and SRAM slave keeps the read invariant |
| `WishboneSessions.WbReadCycleKeepsBeat` | utils.py:112-124 | a cycle in RD_DAT keeps the read invariant: an acked beat adds the report of its transfer, if any |
| `WishboneSessions.WbReadCycleKeepsAdvance` | utils.py:125-135 | a cycle in WAIT_RD_ACK keeps the read invariant: the registers move to the next transfer, or to IDLE after the last |
| `WishboneSessions.WbReadRunKeeps` | utils.py:105-135 | any number of cycles keep it |
| `WishboneSessions.WbReadSessionCorrect` | utils.py:105-135 | for every timing the log is Mismatches of the beats so far; end at most once, exactly when idle; once ended, the log covers every transfer |
| `WishboneSessions.WbWriteThenReadClean` | wishbone64bitsSRAMAccess.py:235-239 | reading after a completed write of the same session logs nothing |
| `WishboneSessions.WbReadEagerTransfer` | utils.py:112-135 | an always-ready slave completes one read in 3 cycles |
| `WishboneSessions.WbReadEagerCycles` | utils.py:112-135 | the three always-ready cycles of one read: request, acked beat compared and logged, registers advanced |
| `WishboneSessions.WbReadEagerPhases` | utils.py:112-135 | 3k always-ready cycles complete k reads |
| `WishboneSessions.WbReadEagerEnds` | utils.py:105-135 | an always-ready read session ends in 3 × count cycles with the full mismatch log |
| `Pipeline.Range` | axi64bitsSRAMAccess.py:299-303 | the in-order start log [0, ..., n - 1] |
| `Pipeline.PipelineStep` | axi64bitsSRAMAccess.py:299-318 | from each phase: RESET starts stage 0, a stage hands over exactly on its end, after Finish nothing moves |
| `Pipeline.StagesFollowPipeline` | axi64bitsSRAMAccess.py:299-303 | stages that keep their discipline move the pipeline as PipelineNext says |
| `Pipeline.PipelineRunPhases` | axi64bitsSRAMAccess.py:299-318 | any trace of end pulses leaves the pipeline in a later phase |
| `Pipeline.PipelineInOrder` | axi64bitsSRAMAccess.py:299-318 | at most one stage busy; stages start in order, once each; Finish at most once and only after all four started and finished |
| `Debug.DigitChar` | utils.py:145-148 | a decimal digit character of value d |
| `Debug.NatToDecimal` | utils.py:145-148 | the width printed into the format is a non-empty run of decimal digits |
| `Debug.DecimalRoundTrip` | utils.py:145-148 | the printed width reads back as the number itself |
| `Debug.DefaultFormat` | utils.py:145-148 | with 64-bit addresses and 32-bit data the fields are 16, 8 and 8 hex digits, backslashes kept |
| `Debug.HexDigitsExact` | utils.py:145-148 | width // 4 hex digits cover exactly a width that is a multiple of 4 |
| `Debug.FieldsFitRegisters` | utils.py:145-148 | every address prints in exactly 16 digits and every word in 8 |
| `Debug.TimelineCounts` | utils.py:157-159 | after a data_error the counter counts 1, 2, ... regardless of later pulses, firing on no earlier cycle |
| `Debug.TimelineFiresAfterDelay` | utils.py:157-159 | Finish exactly 128 cycles after the data_error, then the counter rests |
| `Debug.TimelineQuiet` | utils.py:157-159 | no data_error, no Finish |
| `Debug.Timeline.constructor` | utils.py:157-159 | the watchdog starts idle |
| `Debug.Timeline.Step` | utils.py:157-159 | fires on the last event and advances the counter as TimelineNext |
| `SimSoC.EndpointSetup` | axi64bitsSRAMAccess.py:241-287 | success iff the name is axi-lite or wishbone; "axi-lite" builds the AXI-Lite stages in byte mode and "wishbone" the Wishbone stages in word mode |
| `SimSoC.CliDefaultRejected` | axi64bitsSRAMAccess.py:326 | the command line's default as written fails the assert |
| `SimSoC.CliDefaultSelectsAxiLite` | axi64bitsSRAMAccess.py:239-267 | the documented default builds the AXI-Lite stages in byte mode |
| `SimSoC.AxiSimSoC.constructor` | axi64bitsSRAMAccess.py:266-276 | four stages on the configured regions, two 128-cycle watchdogs, top FSM in RESET |
| `SimSoC.AxiSimSoC.Step` | axi64bitsSRAMAccess.py:299-318 | each stage steps with its start as wired, the writers as written; Finish iff the last checker ends or a watchdog fires; the pipeline view moves as PipelineNext |
| `SimSoC.AxiSimSoC.StepStages` | axi64bitsSRAMAccess.py:299-303 | the stages of one cycle with the start wiring, the writers as written, each busy flag following its start and end |
| `SimSoC.AxiSimSoC.StepWriters` | axi64bitsSRAMAccess.py:298-310 | RESET starts the high writer and its end starts the low one, both with the outputs of the code as written; each busy flag follows its start and end |
| `SimSoC.AxiSimSoC.StepCheckers` | axi64bitsSRAMAccess.py:301-302 | the low writer's end starts the high checker and its end the low one; each busy flag follows its start and end |
| `SimSoC.WishboneSimSoC.constructor` | wishbone64bitsSRAMAccess.py:215-226 | four Wishbone stages in the chosen addressing mode, two watchdogs, top FSM in RESET |
| `SimSoC.WishboneSimSoC.Step` | wishbone64bitsSRAMAccess.py:235-254 | each stage steps with its start as wired; Finish iff the last checker ends or a watchdog fires; the pipeline view moves as PipelineNext |
| `SimSoC.WishboneSimSoC.StepStages` | wishbone64bitsSRAMAccess.py:235-239 | the stages of one cycle with the start wiring, each busy flag following its start and end |
| `SimSoC.WishboneSimSoC.StepWriters` | wishbone64bitsSRAMAccess.py:234-246 | RESET starts the high writer and its end starts the low one; each busy flag follows its start and end |
| `SimSoC.WishboneSimSoC.StepCheckers` | wishbone64bitsSRAMAccess.py:237-238 | the low writer's end starts the high checker and its end the low one; each busy flag follows its start and end |

## Left out

- Board targets and host scripts (the Arty and XCU1525 targets, the SRAM/SDRAM access scripts): not part of this model.
- `add_ram`, the interconnect and the SRAM cores: the slaves are abstract. An AXI-Lite write slave takes the address, then the data, then responds, with arbitrary readiness. The Wishbone slave behaves like LiteX's SRAM: it writes `dat_w` on every request cycle, registers its ack (`ack' = req && !ack && ready`) and returns the registered read word. A slave with other timing is not covered by the Wishbone session theorems.
- `add_ram` also refers to `self` where it should use its `soc` argument (axi64bitsSRAMAccess.py:220). This only fails at elaboration time and is not modelled.
- Sessions whose address range passes 2^64 (`WrappingEndExcluded` shows two that still meet the completion test) are outside the session theorems, which require `Completes`. The configured sessions all meet `Completes` (`DefaultSessions`).
- A run of the whole SoC over a memory shared by its four stages is composed only at transaction level (`Transfers.DisjointSessionsCheckClean`, `Transfers.DefaultRunCheckClean`) and by the per-stage session theorems. No cycle-level theorem follows one `AxiSimSoC` or `WishboneSimSoC` run against a shared memory to an absence of data_error.
- The AXI-Lite write slave never takes a data beat before its address. The writer's one-sided acceptance tracking (w.ready without aw.ready) is shown by `StreamerDataAloneNotTracked` only, not in a whole session.
- `Display` output and verbose prints: the diagnostic is modelled as its format string (`DataErrorFormat`) and as a `Report` of address, observed and expected words. The banner prefix ("[Checker High]") is not part of the proved string.
- The `NextValue(bus.w.strb, 0)` in WAIT_DAT (axi64bitsSRAMAccess.py:85) would drive `w.strb` from the clock domain as well as combinationally. The model keeps only the combinational value: full strobe while `w.valid` is raised, 0 otherwise.
- The `last_loop` signal that `add_debug` declares is never used; it is not modelled.
- The checker's verbose `Display` of every received beat (axi64bitsSRAMAccess.py:166-172) is output only; it is not modelled.
- The `adr_width` and `dw` constructor arguments are fixed at 64 and 32, the only values the SoCs pass.
- Wishbone address conversion by the interconnect (word addresses to byte addresses) is outside the stages and not modelled. In word mode the model's memory is indexed by the word address the stage drives.
- `argparse`, the Verilator build, `SimConfig`, the trace signal, the CRG and `main`: I/O and tooling with no logic of the core. The command-line default is modelled as the constant `CLI_DEFAULT_AS_WRITTEN`.
- The migen FSM and timeline machinery are modelled directly by their cycle semantics. Combinational defaults are 0, `NextValue` commits at the clock edge with the later one winning, and registers truncate to their width.

## Findings

| source | as written | input that shows it | evidently intended | confidence | as-written member | corrected member |
|---|---|---|---|---|---|---|
| axi64bitsSRAMAccess.py:81-88 | WAIT_DAT raises `w.valid` but never drives `w.data`, so the data channel carries 0 | an AXI-Lite slave that takes the address one cycle before the data; with seed 0x12345678 the first word stored at 0x4_0000_0000 is 0 | WAIT_DAT drives `w.data` with `sent_data`, as WR_DAT-ADR does | not executed | `AxiLiteSessions.SlowDataStoresZero` | `AxiLiteSessions.WriteSessionCorrect` |
| axi64bitsSRAMAccess.py:326 | the `--endpoint-bus-std` default is "axi_lite", which the assert at line 241 rejects | running the test without `--endpoint-bus-std` | the default "axi-lite" that the help text documents | not executed | `SimSoC.CliDefaultRejected` | `SimSoC.CliDefaultSelectsAxiLite` |
