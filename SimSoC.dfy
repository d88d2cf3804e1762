/** The simulation SoCs: four traffic stages on the default regions, wired end to start, a top
    FSM that starts the first stage, a watchdog per checker, and the choice of stage kind.
    The interconnect and the RAMs are outside: each cycle the bus-side inputs of every stage
    are parameters of Step. */
module SimSoC {
  import opened AddressArithmetic
  import opened Pipeline
  import opened Debug
  import S = AxiLiteStreamer
  import C = AxiLiteChecker
  import WS = WishboneStreamer
  import WC = WishboneChecker

  /** The two regions, 0x100 bytes each, and the seeds of their sessions. */
  const HIGH_ADR: nat := 0x4_0000_0000
  const LOW_ADR: nat := 0x2_0000
  const REGION_LEN: nat := 0x100
  const HIGH_SEED: nat := 0x1234_5678
  const LOW_SEED: nat := 0xCAFE_BEBE

  // --------------------------------------------------------- stage selection

  datatype Endpoint = AxiLiteEndpoint | WishboneEndpoint

  datatype Result<T> = Success(value: T) | Failure(error: string)

  /** Which stages the SoC of the AXI-Lite test builds, and in which addressing mode: AXI-Lite
      stages in byte mode or Wishbone stages in word mode; any other name fails the assert. */
  function EndpointSetup(std: string): (r: Result<(Endpoint, Addressing)>)
    ensures r.Success? <==> std == "axi-lite" || std == "wishbone"
    ensures r.Success? ==> (r.value.0 == AxiLiteEndpoint <==> r.value.1 == Byte)
    ensures std == "axi-lite" ==> r == Success((AxiLiteEndpoint, Byte))
    ensures std == "wishbone" ==> r == Success((WishboneEndpoint, Word))
  {
    if std == "axi-lite" then Success((AxiLiteEndpoint, Byte))
    else if std == "wishbone" then Success((WishboneEndpoint, Word))
    else Failure("endpoint_bus_std must be axi-lite or wishbone")
  }

  /** The command line's default, as written, and as its help text documents it. */
  const CLI_DEFAULT_AS_WRITTEN: string := "axi_lite"
  const CLI_DEFAULT: string := "axi-lite"

  /** As written, running the test without --endpoint-bus-std fails the assert. */
  lemma CliDefaultRejected()
    ensures EndpointSetup(CLI_DEFAULT_AS_WRITTEN).Failure?
  {
  }

  /** With the documented default the test builds the AXI-Lite stages in byte mode. */
  lemma CliDefaultSelectsAxiLite()
    ensures EndpointSetup(CLI_DEFAULT) == Success((AxiLiteEndpoint, Byte))
  {
  }

  // ------------------------------------------------------------ AXI-Lite SoC

  class AxiSimSoC {
    const streamH: S.AXIPacketStreamer
    const streamL: S.AXIPacketStreamer
    const checkH: C.AXIPacketChecker
    const checkL: C.AXIPacketChecker
    const watchH: Timeline
    const watchL: Timeline
    var top: Top
    ghost var phase: nat
    ghost var started: seq<nat>
    ghost var finishes: nat

    function Busy(): Flags
      reads streamH, streamL, checkH, checkL
    {
      [streamH.state != S.Idle, streamL.state != S.Idle, checkH.state != C.Idle, checkL.state != C.Idle]
    }

    ghost function View(): Progress
      reads this, streamH, streamL, checkH, checkL
    {
      Progress(top, Busy(), started, finishes)
    }

    /** The stages are distinct objects configured for the default sessions, and the run is in
        one of the pipeline's phases. */
    ghost predicate Valid()
      reads this, streamH, streamL, checkH, checkL
    {
      Wiring() && phase <= 5 && View() == PhaseView(phase)
    }

    /** The configuration of the stages, which no cycle changes. */
    ghost predicate Wiring()
    {
      streamH != streamL && checkH != checkL && watchH != watchL &&
      streamH.params == Derive(Byte, HIGH_ADR, REGION_LEN) && streamH.seed == HIGH_SEED &&
      streamL.params == Derive(Byte, LOW_ADR, REGION_LEN) && streamL.seed == LOW_SEED &&
      checkH.params == Derive(Byte, HIGH_ADR, REGION_LEN) && checkH.seed == HIGH_SEED &&
      checkL.params == Derive(Byte, LOW_ADR, REGION_LEN) && checkL.seed == LOW_SEED &&
      watchH.delay == WATCHDOG_DELAY && watchL.delay == WATCHDOG_DELAY
    }

    constructor ()
      ensures Valid() && phase == 0
      ensures top == Reset && watchH.counter == 0 && watchL.counter == 0
    {
      streamH := new S.AXIPacketStreamer(Byte, HIGH_ADR, HIGH_SEED, REGION_LEN);
      streamL := new S.AXIPacketStreamer(Byte, LOW_ADR, LOW_SEED, REGION_LEN);
      checkH := new C.AXIPacketChecker(Byte, HIGH_ADR, HIGH_SEED, REGION_LEN);
      checkL := new C.AXIPacketChecker(Byte, LOW_ADR, LOW_SEED, REGION_LEN);
      watchH := new Timeline(WATCHDOG_DELAY);
      watchL := new Timeline(WATCHDOG_DELAY);
      top := Reset;
      phase := 0;
      started := [];
      finishes := 0;
    }

    /** One clock cycle. The start field of each bus input is ignored: the wiring supplies it.
        finish tells whether Finish is called on this cycle, by the end of the last checker or
        by a watchdog. */
    method Step(ih: S.StreamerIn, il: S.StreamerIn, ich: C.CheckerIn, icl: C.CheckerIn)
      returns (oh: S.StreamerOut, ol: S.StreamerOut, och: C.CheckerOut, ocl: C.CheckerOut, finish: bool)
      requires Valid()
      modifies this, streamH, streamL, checkH, checkL, watchH, watchL
      ensures Valid() && top == WaitEndCheck
      ensures oh == S.StreamerOutputsAsWritten(streamH.params, old(streamH.Regs()), ih)
      ensures ol == S.StreamerOutputsAsWritten(streamL.params, old(streamL.Regs()), il)
      ensures och == C.CheckerOutputs(checkH.params, old(checkH.Regs()), ich)
      ensures ocl == C.CheckerOutputs(checkL.params, old(checkL.Regs()), icl)
      ensures streamH.Regs() == S.StreamerNext(streamH.params, streamH.seed, old(streamH.Regs()), ih.(start := old(top) == Reset))
      ensures streamL.Regs() == S.StreamerNext(streamL.params, streamL.seed, old(streamL.Regs()), il.(start := oh.end))
      ensures checkH.Regs() == C.CheckerNext(checkH.params, checkH.seed, old(checkH.Regs()), ich.(start := ol.end))
      ensures checkL.Regs() == C.CheckerNext(checkL.params, checkL.seed, old(checkL.Regs()), icl.(start := och.end))
      ensures watchH.counter == TimelineNext(WATCHDOG_DELAY, old(watchH.counter), och.dataError)
      ensures watchL.counter == TimelineNext(WATCHDOG_DELAY, old(watchL.counter), ocl.dataError)
      ensures finish == (ocl.end || Fires(WATCHDOG_DELAY, old(watchH.counter)) || Fires(WATCHDOG_DELAY, old(watchL.counter)))
      ensures View() == PipelineNext(old(View()), [oh.end, ol.end, och.end, ocl.end])
    {
      var v := View();
      oh, ol, och, ocl, finish := StepStages(ih, il, ich, icl);
      var ends: Flags := [oh.end, ol.end, och.end, ocl.end];
      StagesFollowPipeline(v, ends, Busy());
      PipelineStep(phase, ends);
      ghost var k := NextPhase(phase, ends);
      assert Busy() == PhaseView(k).busy;
      top, phase, started, finishes := WaitEndCheck, k, PhaseView(k).started, PhaseView(k).finishes;
      assert View() == PhaseView(k);
    }

    /** The stages and watchdogs of one cycle, with the start wiring; each stage keeps its
        discipline towards the pipeline. */
    method StepStages(ih: S.StreamerIn, il: S.StreamerIn, ich: C.CheckerIn, icl: C.CheckerIn)
      returns (oh: S.StreamerOut, ol: S.StreamerOut, och: C.CheckerOut, ocl: C.CheckerOut, finish: bool)
      requires Wiring()
      modifies streamH, streamL, checkH, checkL, watchH, watchL
      ensures oh == S.StreamerOutputsAsWritten(streamH.params, old(streamH.Regs()), ih)
      ensures ol == S.StreamerOutputsAsWritten(streamL.params, old(streamL.Regs()), il)
      ensures och == C.CheckerOutputs(checkH.params, old(checkH.Regs()), ich)
      ensures ocl == C.CheckerOutputs(checkL.params, old(checkL.Regs()), icl)
      ensures streamH.Regs() == S.StreamerNext(streamH.params, streamH.seed, old(streamH.Regs()), ih.(start := top == Reset))
      ensures streamL.Regs() == S.StreamerNext(streamL.params, streamL.seed, old(streamL.Regs()), il.(start := oh.end))
      ensures checkH.Regs() == C.CheckerNext(checkH.params, checkH.seed, old(checkH.Regs()), ich.(start := ol.end))
      ensures checkL.Regs() == C.CheckerNext(checkL.params, checkL.seed, old(checkL.Regs()), icl.(start := och.end))
      ensures watchH.counter == TimelineNext(WATCHDOG_DELAY, old(watchH.counter), och.dataError)
      ensures watchL.counter == TimelineNext(WATCHDOG_DELAY, old(watchL.counter), ocl.dataError)
      ensures finish == (ocl.end || Fires(WATCHDOG_DELAY, old(watchH.counter)) || Fires(WATCHDOG_DELAY, old(watchL.counter)))
      ensures Busy()[0] == (if old(Busy())[0] then !oh.end else top == Reset)
      ensures Busy()[1] == (if old(Busy())[1] then !ol.end else oh.end)
      ensures Busy()[2] == (if old(Busy())[2] then !och.end else ol.end)
      ensures Busy()[3] == (if old(Busy())[3] then !ocl.end else och.end)
      ensures (oh.end ==> old(Busy())[0]) && (ol.end ==> old(Busy())[1])
      ensures (och.end ==> old(Busy())[2]) && (ocl.end ==> old(Busy())[3])
    {
      oh, ol := StepWriters(ih, il);
      och, ocl := StepCheckers(ich, icl, ol.end);
      var fireH := watchH.Step(och.dataError);
      var fireL := watchL.Step(ocl.dataError);
      // the last checker's end calls Finish both in WAIT-END-CHECK and from the clocked If
      finish := ocl.end || fireH || fireL;
    }

    /** The two writers of one cycle: the top FSM starts the high one while in RESET, the
        high one's end starts the low one. */
    method StepWriters(ih: S.StreamerIn, il: S.StreamerIn) returns (oh: S.StreamerOut, ol: S.StreamerOut)
      requires streamH != streamL
      modifies streamH, streamL
      ensures oh == S.StreamerOutputsAsWritten(streamH.params, old(streamH.Regs()), ih)
      ensures ol == S.StreamerOutputsAsWritten(streamL.params, old(streamL.Regs()), il)
      ensures streamH.Regs() == S.StreamerNext(streamH.params, streamH.seed, old(streamH.Regs()), ih.(start := top == Reset))
      ensures streamL.Regs() == S.StreamerNext(streamL.params, streamL.seed, old(streamL.Regs()), il.(start := oh.end))
      ensures (streamH.state != S.Idle) == (if old(streamH.state) != S.Idle then !oh.end else top == Reset)
      ensures (streamL.state != S.Idle) == (if old(streamL.state) != S.Idle then !ol.end else oh.end)
      ensures (oh.end ==> old(streamH.state) != S.Idle) && (ol.end ==> old(streamL.state) != S.Idle)
    {
      var rh, rl := streamH.Regs(), streamL.Regs();
      var jh := ih.(start := top == Reset);
      oh := streamH.Step(jh);
      S.StreamerDiscipline(streamH.params, streamH.seed, rh, jh);
      var jl := il.(start := oh.end);
      ol := streamL.Step(jl);
      S.StreamerDiscipline(streamL.params, streamL.seed, rl, jl);
    }

    /** The two checkers of one cycle: the low writer's end (start) starts the high one, the
        high one's end starts the low one. */
    method StepCheckers(ich: C.CheckerIn, icl: C.CheckerIn, start: bool) returns (och: C.CheckerOut, ocl: C.CheckerOut)
      requires checkH != checkL
      modifies checkH, checkL
      ensures och == C.CheckerOutputs(checkH.params, old(checkH.Regs()), ich)
      ensures ocl == C.CheckerOutputs(checkL.params, old(checkL.Regs()), icl)
      ensures checkH.Regs() == C.CheckerNext(checkH.params, checkH.seed, old(checkH.Regs()), ich.(start := start))
      ensures checkL.Regs() == C.CheckerNext(checkL.params, checkL.seed, old(checkL.Regs()), icl.(start := och.end))
      ensures (checkH.state != C.Idle) == (if old(checkH.state) != C.Idle then !och.end else start)
      ensures (checkL.state != C.Idle) == (if old(checkL.state) != C.Idle then !ocl.end else och.end)
      ensures (och.end ==> old(checkH.state) != C.Idle) && (ocl.end ==> old(checkL.state) != C.Idle)
    {
      var rch, rcl := checkH.Regs(), checkL.Regs();
      var jch := ich.(start := start);
      och := checkH.Step(jch);
      C.CheckerDiscipline(checkH.params, checkH.seed, rch, jch);
      var jcl := icl.(start := och.end);
      ocl := checkL.Step(jcl);
      C.CheckerDiscipline(checkL.params, checkL.seed, rcl, jcl);
    }
  }

  // ------------------------------------------------------------ Wishbone SoC

  /** The SoC of the Wishbone test (addressing chosen on the command line), which is also
      the Wishbone branch of the AXI-Lite test (word addressing). */
  class WishboneSimSoC {
    const mode: Addressing
    const streamH: WS.WishbonePacketStreamer
    const streamL: WS.WishbonePacketStreamer
    const checkH: WC.WishbonePacketChecker
    const checkL: WC.WishbonePacketChecker
    const watchH: Timeline
    const watchL: Timeline
    var top: Top
    ghost var phase: nat
    ghost var started: seq<nat>
    ghost var finishes: nat

    function Busy(): Flags
      reads streamH, streamL, checkH, checkL
    {
      [streamH.state != WS.Idle, streamL.state != WS.Idle, checkH.state != WC.Idle, checkL.state != WC.Idle]
    }

    ghost function View(): Progress
      reads this, streamH, streamL, checkH, checkL
    {
      Progress(top, Busy(), started, finishes)
    }

    ghost predicate Valid()
      reads this, streamH, streamL, checkH, checkL
    {
      Wiring() && phase <= 5 && View() == PhaseView(phase)
    }

    /** The configuration of the stages, which no cycle changes. */
    ghost predicate Wiring()
    {
      streamH != streamL && checkH != checkL && watchH != watchL &&
      streamH.params == Derive(mode, HIGH_ADR, REGION_LEN) && streamH.seed == HIGH_SEED &&
      streamL.params == Derive(mode, LOW_ADR, REGION_LEN) && streamL.seed == LOW_SEED &&
      checkH.params == Derive(mode, HIGH_ADR, REGION_LEN) && checkH.seed == HIGH_SEED &&
      checkL.params == Derive(mode, LOW_ADR, REGION_LEN) && checkL.seed == LOW_SEED &&
      watchH.delay == WATCHDOG_DELAY && watchL.delay == WATCHDOG_DELAY
    }

    constructor (addressing: Addressing)
      ensures mode == addressing && Valid() && phase == 0
      ensures top == Reset && watchH.counter == 0 && watchL.counter == 0
    {
      mode := addressing;
      streamH := new WS.WishbonePacketStreamer(addressing, HIGH_ADR, HIGH_SEED, REGION_LEN);
      streamL := new WS.WishbonePacketStreamer(addressing, LOW_ADR, LOW_SEED, REGION_LEN);
      checkH := new WC.WishbonePacketChecker(addressing, HIGH_ADR, HIGH_SEED, REGION_LEN);
      checkL := new WC.WishbonePacketChecker(addressing, LOW_ADR, LOW_SEED, REGION_LEN);
      watchH := new Timeline(WATCHDOG_DELAY);
      watchL := new Timeline(WATCHDOG_DELAY);
      top := Reset;
      phase := 0;
      started := [];
      finishes := 0;
    }

    /** One clock cycle. The start field of each bus input is ignored: the wiring supplies it.
        finish tells whether Finish is called on this cycle, by the end of the last checker or
        by a watchdog. */
    method Step(ih: WS.StreamerIn, il: WS.StreamerIn, ich: WC.CheckerIn, icl: WC.CheckerIn)
      returns (oh: WS.StreamerOut, ol: WS.StreamerOut, och: WC.CheckerOut, ocl: WC.CheckerOut, finish: bool)
      requires Valid()
      modifies this, streamH, streamL, checkH, checkL, watchH, watchL
      ensures Valid() && top == WaitEndCheck
      ensures oh == WS.StreamerOutputs(streamH.params, old(streamH.Regs()), ih)
      ensures ol == WS.StreamerOutputs(streamL.params, old(streamL.Regs()), il)
      ensures och == WC.CheckerOutputs(checkH.params, old(checkH.Regs()), ich)
      ensures ocl == WC.CheckerOutputs(checkL.params, old(checkL.Regs()), icl)
      ensures streamH.Regs() == WS.StreamerNext(streamH.params, streamH.seed, old(streamH.Regs()), ih.(start := old(top) == Reset))
      ensures streamL.Regs() == WS.StreamerNext(streamL.params, streamL.seed, old(streamL.Regs()), il.(start := oh.end))
      ensures checkH.Regs() == WC.CheckerNext(checkH.params, checkH.seed, old(checkH.Regs()), ich.(start := ol.end))
      ensures checkL.Regs() == WC.CheckerNext(checkL.params, checkL.seed, old(checkL.Regs()), icl.(start := och.end))
      ensures watchH.counter == TimelineNext(WATCHDOG_DELAY, old(watchH.counter), och.dataError)
      ensures watchL.counter == TimelineNext(WATCHDOG_DELAY, old(watchL.counter), ocl.dataError)
      ensures finish == (ocl.end || Fires(WATCHDOG_DELAY, old(watchH.counter)) || Fires(WATCHDOG_DELAY, old(watchL.counter)))
      ensures View() == PipelineNext(old(View()), [oh.end, ol.end, och.end, ocl.end])
    {
      var v := View();
      oh, ol, och, ocl, finish := StepStages(ih, il, ich, icl);
      var ends: Flags := [oh.end, ol.end, och.end, ocl.end];
      StagesFollowPipeline(v, ends, Busy());
      PipelineStep(phase, ends);
      ghost var k := NextPhase(phase, ends);
      assert Busy() == PhaseView(k).busy;
      top, phase, started, finishes := WaitEndCheck, k, PhaseView(k).started, PhaseView(k).finishes;
      assert View() == PhaseView(k);
    }

    /** The stages and watchdogs of one cycle, with the start wiring; each stage keeps its
        discipline towards the pipeline. */
    method StepStages(ih: WS.StreamerIn, il: WS.StreamerIn, ich: WC.CheckerIn, icl: WC.CheckerIn)
      returns (oh: WS.StreamerOut, ol: WS.StreamerOut, och: WC.CheckerOut, ocl: WC.CheckerOut, finish: bool)
      requires Wiring()
      modifies streamH, streamL, checkH, checkL, watchH, watchL
      ensures oh == WS.StreamerOutputs(streamH.params, old(streamH.Regs()), ih)
      ensures ol == WS.StreamerOutputs(streamL.params, old(streamL.Regs()), il)
      ensures och == WC.CheckerOutputs(checkH.params, old(checkH.Regs()), ich)
      ensures ocl == WC.CheckerOutputs(checkL.params, old(checkL.Regs()), icl)
      ensures streamH.Regs() == WS.StreamerNext(streamH.params, streamH.seed, old(streamH.Regs()), ih.(start := top == Reset))
      ensures streamL.Regs() == WS.StreamerNext(streamL.params, streamL.seed, old(streamL.Regs()), il.(start := oh.end))
      ensures checkH.Regs() == WC.CheckerNext(checkH.params, checkH.seed, old(checkH.Regs()), ich.(start := ol.end))
      ensures checkL.Regs() == WC.CheckerNext(checkL.params, checkL.seed, old(checkL.Regs()), icl.(start := och.end))
      ensures watchH.counter == TimelineNext(WATCHDOG_DELAY, old(watchH.counter), och.dataError)
      ensures watchL.counter == TimelineNext(WATCHDOG_DELAY, old(watchL.counter), ocl.dataError)
      ensures finish == (ocl.end || Fires(WATCHDOG_DELAY, old(watchH.counter)) || Fires(WATCHDOG_DELAY, old(watchL.counter)))
      ensures Busy()[0] == (if old(Busy())[0] then !oh.end else top == Reset)
      ensures Busy()[1] == (if old(Busy())[1] then !ol.end else oh.end)
      ensures Busy()[2] == (if old(Busy())[2] then !och.end else ol.end)
      ensures Busy()[3] == (if old(Busy())[3] then !ocl.end else och.end)
      ensures (oh.end ==> old(Busy())[0]) && (ol.end ==> old(Busy())[1])
      ensures (och.end ==> old(Busy())[2]) && (ocl.end ==> old(Busy())[3])
    {
      oh, ol := StepWriters(ih, il);
      och, ocl := StepCheckers(ich, icl, ol.end);
      var fireH := watchH.Step(och.dataError);
      var fireL := watchL.Step(ocl.dataError);
      // the last checker's end calls Finish both in WAIT-END-CHECK and from the clocked If
      finish := ocl.end || fireH || fireL;
    }

    /** The two writers of one cycle: the top FSM starts the high one while in RESET, the
        high one's end starts the low one. */
    method StepWriters(ih: WS.StreamerIn, il: WS.StreamerIn) returns (oh: WS.StreamerOut, ol: WS.StreamerOut)
      requires streamH != streamL
      modifies streamH, streamL
      ensures oh == WS.StreamerOutputs(streamH.params, old(streamH.Regs()), ih)
      ensures ol == WS.StreamerOutputs(streamL.params, old(streamL.Regs()), il)
      ensures streamH.Regs() == WS.StreamerNext(streamH.params, streamH.seed, old(streamH.Regs()), ih.(start := top == Reset))
      ensures streamL.Regs() == WS.StreamerNext(streamL.params, streamL.seed, old(streamL.Regs()), il.(start := oh.end))
      ensures (streamH.state != WS.Idle) == (if old(streamH.state) != WS.Idle then !oh.end else top == Reset)
      ensures (streamL.state != WS.Idle) == (if old(streamL.state) != WS.Idle then !ol.end else oh.end)
      ensures (oh.end ==> old(streamH.state) != WS.Idle) && (ol.end ==> old(streamL.state) != WS.Idle)
    {
      var rh, rl := streamH.Regs(), streamL.Regs();
      var jh := ih.(start := top == Reset);
      oh := streamH.Step(jh);
      WS.StreamerDiscipline(streamH.params, streamH.seed, rh, jh);
      var jl := il.(start := oh.end);
      ol := streamL.Step(jl);
      WS.StreamerDiscipline(streamL.params, streamL.seed, rl, jl);
    }

    /** The two checkers of one cycle: the low writer's end (start) starts the high one, the
        high one's end starts the low one. */
    method StepCheckers(ich: WC.CheckerIn, icl: WC.CheckerIn, start: bool) returns (och: WC.CheckerOut, ocl: WC.CheckerOut)
      requires checkH != checkL
      modifies checkH, checkL
      ensures och == WC.CheckerOutputs(checkH.params, old(checkH.Regs()), ich)
      ensures ocl == WC.CheckerOutputs(checkL.params, old(checkL.Regs()), icl)
      ensures checkH.Regs() == WC.CheckerNext(checkH.params, checkH.seed, old(checkH.Regs()), ich.(start := start))
      ensures checkL.Regs() == WC.CheckerNext(checkL.params, checkL.seed, old(checkL.Regs()), icl.(start := och.end))
      ensures (checkH.state != WC.Idle) == (if old(checkH.state) != WC.Idle then !och.end else start)
      ensures (checkL.state != WC.Idle) == (if old(checkL.state) != WC.Idle then !ocl.end else och.end)
      ensures (och.end ==> old(checkH.state) != WC.Idle) && (ocl.end ==> old(checkL.state) != WC.Idle)
    {
      var rch, rcl := checkH.Regs(), checkL.Regs();
      var jch := ich.(start := start);
      och := checkH.Step(jch);
      WC.CheckerDiscipline(checkH.params, checkH.seed, rch, jch);
      var jcl := icl.(start := och.end);
      ocl := checkL.Step(jcl);
      WC.CheckerDiscipline(checkL.params, checkL.seed, rcl, jcl);
    }
  }
}
