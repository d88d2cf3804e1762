/** The pipeline sequence of the simulation SoCs: four stages (0 writer high, 1 writer low,
    2 checker high, 3 checker low) chained end to start, the top FSM RESET -> WAIT-END-CHECK
    that starts stage 0, and Finish on the last stage's end. A stage is seen here only as
    busy or idle; every stage obeys the discipline proved for it (StreamerDiscipline,
    CheckerDiscipline): it becomes busy on start while idle, stays busy until its end, and
    pulses end only while busy. */
module Pipeline {

  datatype Top = Reset | WaitEndCheck

  /** One flag per stage. */
  type Flags = s: seq<bool> | |s| == 4 witness [false, false, false, false]

  /** What is observable of the pipeline, with two counters over the run so far: the stages
      started, in the order they started, and the Finish calls from end of the last stage. */
  datatype Progress = Progress(top: Top, busy: Flags, started: seq<nat>, finishes: nat)

  /** The start signals: RESET drives stage 0, each other stage is started by the end of the
      one before it. */
  function Starts(top: Top, ends: Flags): Flags
  {
    [top == Reset, ends[0], ends[1], ends[2]]
  }

  /** The stages whose flag is set, in stage order. */
  function Indices(s: Flags): seq<nat>
  {
    (if s[0] then [0] else []) + (if s[1] then [1] else []) + (if s[2] then [2] else []) +
    (if s[3] then [3] else [])
  }

  /** An end pulse counts only from a busy stage. */
  function Masked(ends: Flags, busy: Flags): Flags
  {
    [ends[0] && busy[0], ends[1] && busy[1], ends[2] && busy[2], ends[3] && busy[3]]
  }

  /** One clock cycle, given the stages' end pulses. */
  function PipelineNext(v: Progress, ends: Flags): Progress
  {
    var e := Masked(ends, v.busy);
    var s := Starts(v.top, e);
    Progress(WaitEndCheck,
             [if v.busy[0] then !e[0] else s[0], if v.busy[1] then !e[1] else s[1],
              if v.busy[2] then !e[2] else s[2], if v.busy[3] then !e[3] else s[3]],
             v.started + Indices(s),
             v.finishes + (if e[3] then 1 else 0))
  }

  function PipelineRun(v: Progress, trace: seq<Flags>): Progress
    decreases |trace|
  {
    if trace == [] then v else PipelineRun(PipelineNext(v, trace[0]), trace[1..])
  }

  /** [0, 1, ..., n - 1] */
  function Range(n: nat): (r: seq<nat>)
    ensures |r| == n && forall j :: 0 <= j < n ==> r[j] == j
  {
    if n == 0 then [] else Range(n - 1) + [n - 1]
  }

  /** The six phases of a run: 0 before reset, k = 1 .. 4 while stage k - 1 runs, 5 after
      Finish. */
  function PhaseView(k: nat): Progress
    requires k <= 5
  {
    Progress(if k == 0 then Reset else WaitEndCheck, [k == 1, k == 2, k == 3, k == 4],
             Range(if k < 4 then k else 4), if k == 5 then 1 else 0)
  }

  /** From each phase the only moves are: reset starts stage 0; a running stage hands over to
      the next one exactly on its end (the last one calls Finish instead); after Finish
      nothing happens; ends of idle stages are ignored. */
  lemma PipelineStep(k: nat, ends: Flags)
    requires k <= 5
    ensures var n := PipelineNext(PhaseView(k), ends);
      (k == 0 ==> n == PhaseView(1)) &&
      (1 <= k <= 4 ==> n == if ends[k - 1] then PhaseView(k + 1) else PhaseView(k)) &&
      (k == 5 ==> n == PhaseView(5)) &&
      n == PhaseView(NextPhase(k, ends))
  {
    assert Range(1) == Range(0) + [0];
    assert Range(2) == Range(1) + [1];
    assert Range(3) == Range(2) + [2];
    assert Range(4) == Range(3) + [3];
  }

  /** The phase after one cycle. */
  function NextPhase(k: nat, ends: Flags): nat
  {
    if k == 0 then 1 else if k >= 5 then 5 else if ends[k - 1] then k + 1 else k
  }

  /** Stages that keep their discipline move the pipeline as PipelineNext says: given that
      ends come only from busy stages and each stage's next busy flag follows its start and
      end, the next flags, start log and Finish count are those of PipelineNext. */
  lemma StagesFollowPipeline(v: Progress, ends: Flags, next: Flags)
    requires (ends[0] ==> v.busy[0]) && (ends[1] ==> v.busy[1]) && (ends[2] ==> v.busy[2]) && (ends[3] ==> v.busy[3])
    requires next[0] == (if v.busy[0] then !ends[0] else v.top == Reset)
    requires next[1] == (if v.busy[1] then !ends[1] else ends[0])
    requires next[2] == (if v.busy[2] then !ends[2] else ends[1])
    requires next[3] == (if v.busy[3] then !ends[3] else ends[2])
    ensures PipelineNext(v, ends) ==
      Progress(WaitEndCheck, next, v.started + Indices(Starts(v.top, ends)), v.finishes + (if ends[3] then 1 else 0))
  {
    assert Masked(ends, v.busy) == ends;
  }

  lemma {:induction false} PipelineRunPhases(k: nat, trace: seq<Flags>)
    requires k <= 5
    ensures exists k' :: k <= k' <= 5 && PipelineRun(PhaseView(k), trace) == PhaseView(k')
    decreases |trace|
  {
    if trace == [] {
      assert PipelineRun(PhaseView(k), trace) == PhaseView(k);
    } else {
      PipelineStep(k, trace[0]);
      PipelineRunPhases(NextPhase(k, trace[0]), trace[1..]);
    }
  }

  /** Whatever the stages' timing: at most one stage is busy at any time, the stages start in
      the order writer high, writer low, checker high, checker low, each at most once, and the
      Finish from the last stage comes at most once and only after all four have started. */
  lemma PipelineInOrder(trace: seq<Flags>)
    ensures var v := PipelineRun(PhaseView(0), trace);
      (forall i, j :: 0 <= i < j < 4 ==> !(v.busy[i] && v.busy[j])) &&
      |v.started| <= 4 && v.started == Range(|v.started|) &&
      v.finishes <= 1 && (v.finishes == 1 ==> v.started == [0, 1, 2, 3] && v.busy == [false, false, false, false])
  {
    PipelineRunPhases(0, trace);
    assert Range(4) == [0, 1, 2, 3];
  }
}
