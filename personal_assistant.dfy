/** The agents panel: workflows whose steps run one after another, and tasks that
    go from pending to in progress to completed. The React state hooks become the
    fields of class `PersonalAssistant`; each `prev.map(...)` passed to a state
    setter becomes a pure function on the list of records. */
module Assistant {
  import opened Text
  import opened Optional

  datatype AgentStatus = Idle | Running | Completed | Error

  datatype Agent = Agent(
    id: string,
    name: string,
    description: string,
    status: AgentStatus,
    progress: real,
    capabilities: seq<string>,
    lastExecution: Option<Timestamp>)

  datatype StepStatus = Pending | Running | Completed | Error

  datatype WorkflowStep = WorkflowStep(
    id: string,
    name: string,
    description: string,
    status: StepStatus,
    agent: Option<string>,
    output: Option<string>)

  datatype WorkflowStatus = Draft | Running | Completed

  datatype Workflow = Workflow(
    id: string,
    name: string,
    description: string,
    agents: seq<string>,
    status: WorkflowStatus,
    steps: seq<WorkflowStep>,
    progress: real)

  datatype Priority = Low | Medium | High

  datatype TaskStatus = Pending | InProgress | Completed

  datatype Task = Task(
    id: string,
    title: string,
    description: string,
    priority: Priority,
    status: TaskStatus,
    assignedAgent: Option<string>,
    createdAt: Timestamp,
    completedAt: Option<Timestamp>)

  // ---------------------------------------------------------------------------
  // Workflow execution
  // ---------------------------------------------------------------------------

  /** The text attached to a step when it completes. */
  function StepOutput(name: string): string {
    "Resultado da execução: " + name + " concluído com sucesso."
  }

  /** A step as it is after the run has completed it. */
  function Done(s: WorkflowStep): WorkflowStep {
    s.(status := StepStatus.Completed, output := Some(StepOutput(s.name)))
  }

  predicate UniqueStepIds(steps: seq<WorkflowStep>) {
    forall j, k :: 0 <= j < k < |steps| ==> steps[j].id != steps[k].id
  }

  /** One call of `setWorkflows` during a run: the start of the run, the start of
      step i, the completion of step i, and the end of the run. */
  datatype Phase = Begin | Start(i: nat) | Finish(i: nat) | End

  predicate Fits(p: Phase, n: nat) {
    match p
    case Start(i) => i < n
    case Finish(i) => i < n
    case _ => true
  }

  predicate AllFit(ps: seq<Phase>, n: nat) {
    forall k :: 0 <= k < |ps| ==> Fits(ps[k], n)
  }

  /** The phases of the `for` loop from step i on. */
  function StepPhases(i: nat, n: nat): seq<Phase>
    requires i <= n
    decreases n - i
  {
    if i >= n then [] else [Start(i), Finish(i)] + StepPhases(i + 1, n)
  }

  /** The state updates of one run over n steps, in the order they are made. */
  function Schedule(n: nat): (s: seq<Phase>)
    ensures |s| == 2 * n + 2
  {
    StepPhasesAt(0, n);
    [Begin] + StepPhases(0, n) + [End]
  }

  /** The aggregate progress a phase sets. */
  function ProgressOf(p: Phase, n: nat): real
    requires Fits(p, n)
  {
    match p
    case Begin => 0.0
    case Start(i) => ((i as real + 0.5) / (n as real)) * 100.0
    case Finish(i) => ((i as real + 1.0) / (n as real)) * 100.0
    case End => 100.0
  }

  /** `steps.map(s => s.id === stepId ? { ...s, status: 'running' } : s)` */
  function MarkRunning(steps: seq<WorkflowStep>, stepId: string): seq<WorkflowStep> {
    seq(|steps|, j requires 0 <= j < |steps| =>
      if steps[j].id == stepId then steps[j].(status := StepStatus.Running) else steps[j])
  }

  /** `steps.map(s => s.id === stepId ? { ...s, status: 'completed', output } : s)` */
  function MarkCompleted(steps: seq<WorkflowStep>, stepId: string, output: string): seq<WorkflowStep> {
    seq(|steps|, j requires 0 <= j < |steps| =>
      if steps[j].id == stepId then steps[j].(status := StepStatus.Completed, output := Some(output))
      else steps[j])
  }

  /** What a phase does to one workflow record whose id matches. `src` is the
      workflow as found when the run began: step ids, names and the step count
      come from it, the rest from the current record `w`. */
  function Apply(p: Phase, src: Workflow, w: Workflow): Workflow
    requires Fits(p, |src.steps|)
  {
    match p
    case Begin => w.(status := WorkflowStatus.Running, progress := 0.0)
    case Start(i) =>
      w.(steps := MarkRunning(w.steps, src.steps[i].id), progress := ProgressOf(p, |src.steps|))
    case Finish(i) =>
      w.(steps := MarkCompleted(w.steps, src.steps[i].id, StepOutput(src.steps[i].name)),
         progress := ProgressOf(p, |src.steps|))
    case End => w.(status := WorkflowStatus.Completed, progress := 100.0)
  }

  /** `setWorkflows(prev => prev.map(w => w.id === workflowId ? ... : w))` */
  function Update(ws: seq<Workflow>, id: string, p: Phase, src: Workflow): seq<Workflow>
    requires Fits(p, |src.steps|)
  {
    seq(|ws|, j requires 0 <= j < |ws| => if ws[j].id == id then Apply(p, src, ws[j]) else ws[j])
  }

  /** The workflow list after the updates ps. */
  function ApplyAll(ws: seq<Workflow>, id: string, src: Workflow, ps: seq<Phase>): (r: seq<Workflow>)
    requires AllFit(ps, |src.steps|)
    ensures |r| == |ws|
    decreases |ps|
  {
    if ps == [] then ws
    else Update(ApplyAll(ws, id, src, ps[..|ps| - 1]), id, ps[|ps| - 1], src)
  }

  /** The successive list values after each of the updates ps. */
  function Trace(ws: seq<Workflow>, id: string, src: Workflow, ps: seq<Phase>): (r: seq<seq<Workflow>>)
    requires AllFit(ps, |src.steps|)
    ensures |r| == |ps|
    decreases |ps|
  {
    if ps == [] then []
    else Trace(ws, id, src, ps[..|ps| - 1]) + [ApplyAll(ws, id, src, ps)]
  }

  /** One matching record after the updates ps. */
  function Chain(w: Workflow, src: Workflow, ps: seq<Phase>): Workflow
    requires AllFit(ps, |src.steps|)
    decreases |ps|
  {
    if ps == [] then w else Apply(ps[|ps| - 1], src, Chain(w, src, ps[..|ps| - 1]))
  }

  /** `workflows.find(w => w.id === id)`, as the index of the record it returns. */
  function FindIndex(ws: seq<Workflow>, id: string): (r: Option<nat>)
    ensures r.None? <==> forall j :: 0 <= j < |ws| ==> ws[j].id != id
    ensures r.Some? ==> r.value < |ws| && ws[r.value].id == id
                        && forall j :: 0 <= j < r.value ==> ws[j].id != id
  {
    if ws == [] then None
    else if ws[0].id == id then Some(0)
    else match FindIndex(ws[1..], id)
      case None => None
      case Some(k) => Some(k + 1)
  }

  /** Every value `workflows` takes during `executeWorkflow(id)`, in order. */
  function RunTrace(ws: seq<Workflow>, id: string): seq<seq<Workflow>> {
    match FindIndex(ws, id)
    case None => []
    case Some(f) =>
      ScheduleFits(|ws[f].steps|);
      Trace(ws, id, ws[f], Schedule(|ws[f].steps|))
  }

  /** The workflow list once `executeWorkflow(id)` has returned. */
  function Run(ws: seq<Workflow>, id: string): seq<Workflow> {
    match FindIndex(ws, id)
    case None => ws
    case Some(f) =>
      ScheduleFits(|ws[f].steps|);
      ApplyAll(ws, id, ws[f], Schedule(|ws[f].steps|))
  }

  // ----- the order of the updates -------------------------------------------

  lemma {:induction false} StepPhasesAt(i: nat, n: nat)
    requires i <= n
    ensures |StepPhases(i, n)| == 2 * (n - i)
    ensures forall m :: 0 <= m < n - i ==>
              StepPhases(i, n)[2 * m] == Start(i + m) && StepPhases(i, n)[2 * m + 1] == Finish(i + m)
    decreases n - i
  {
    if i < n {
      StepPhasesAt(i + 1, n);
      var rest := StepPhases(i + 1, n);
      assert StepPhases(i, n) == [Start(i), Finish(i)] + rest;
      forall m | 0 < m < n - i
        ensures StepPhases(i, n)[2 * m] == Start(i + m) && StepPhases(i, n)[2 * m + 1] == Finish(i + m)
      {
        assert StepPhases(i, n)[2 * m] == rest[2 * (m - 1)];
        assert StepPhases(i, n)[2 * m + 1] == rest[2 * (m - 1) + 1];
      }
    }
  }

  /** Steps are visited strictly in list order: the run starts, then step i is
      set running and then completed before step i + 1 is set running, and the
      run ends last. */
  lemma ScheduleOrder(n: nat)
    ensures |Schedule(n)| == 2 * n + 2
    ensures Schedule(n)[0] == Begin && Schedule(n)[2 * n + 1] == End
    ensures forall i :: 0 <= i < n ==> Schedule(n)[2 * i + 1] == Start(i) && Schedule(n)[2 * i + 2] == Finish(i)
  {
    StepPhasesAt(0, n);
    var mid := StepPhases(0, n);
    assert Schedule(n) == [Begin] + mid + [End];
    forall i | 0 <= i < n
      ensures Schedule(n)[2 * i + 1] == Start(i) && Schedule(n)[2 * i + 2] == Finish(i)
    {
      assert Schedule(n)[2 * i + 1] == mid[2 * i];
      assert Schedule(n)[2 * i + 2] == mid[2 * i + 1];
    }
  }

  lemma SchedulePair(n: nat, i: nat)
    requires i < n
    ensures Schedule(n)[2 * i + 1] == Start(i) && Schedule(n)[2 * i + 2] == Finish(i)
  {
    ScheduleOrder(n);
  }

  /** The phase at each position of the schedule, by parity. */
  lemma ScheduleAt(n: nat, k: nat)
    requires k < 2 * n + 2
    ensures Fits(Schedule(n)[k], n)
    ensures Schedule(n)[k] ==
      if k == 0 then Begin
      else if k == 2 * n + 1 then End
      else if k % 2 == 1 then Start((k - 1) / 2)
      else Finish((k - 2) / 2)
  {
    ScheduleOrder(n);
    if 0 < k < 2 * n + 1 {
      if k % 2 == 1 {
        assert Schedule(n)[2 * ((k - 1) / 2) + 1] == Start((k - 1) / 2);
      } else {
        assert Schedule(n)[2 * ((k - 2) / 2) + 2] == Finish((k - 2) / 2);
      }
    }
  }

  lemma ScheduleFits(n: nat)
    ensures AllFit(Schedule(n), n)
  {
    forall k | 0 <= k < |Schedule(n)| ensures Fits(Schedule(n)[k], n) {
      ScheduleOrder(n);
      ScheduleAt(n, k);
    }
  }

  // ----- progress -------------------------------------------------------------

  /** While a run is in flight its progress is k/2n of the way: half a step per update. */
  lemma ScheduleProgress(n: nat, k: nat)
    requires n > 0 && k <= 2 * n
    ensures Fits(Schedule(n)[k], n)
    ensures ProgressOf(Schedule(n)[k], n) == (k as real) * 50.0 / (n as real)
  {
    ScheduleAt(n, k);
    if k > 0 {
      if k % 2 == 1 {
        var i := (k - 1) / 2;
        assert k == 2 * i + 1;
        assert (i as real + 0.5) * 100.0 == (k as real) * 50.0;
      } else {
        var i := (k - 2) / 2;
        assert k == 2 * i + 2;
        assert (i as real + 1.0) * 100.0 == (k as real) * 50.0;
      }
    }
  }

  /** k/2n of the way, as a percentage, for 0 <= k <= 2n. */
  lemma ShareBounds(n: nat, j: nat, k: nat)
    requires n > 0 && j <= k <= 2 * n
    ensures 0.0 <= (j as real) * 50.0 / (n as real) <= (k as real) * 50.0 / (n as real) <= 100.0
  {
    var nr := n as real;
    DivideMonotone(0.0, (j as real) * 50.0, nr);
    DivideMonotone((j as real) * 50.0, (k as real) * 50.0, nr);
    DivideMonotone((k as real) * 50.0, 100.0 * nr, nr);
    DivideBack(100.0, nr);
  }

  lemma DivideBack(c: real, d: real)
    requires d > 0.0
    ensures c * d / d == c
  {
  }

  lemma DivideMonotone(x: real, y: real, d: real)
    requires x <= y && d > 0.0
    ensures x / d <= y / d
  {
    var q := y / d - x / d;
    assert q * d == y - x;
  }

  /** Progress never decreases over the updates of a run and stays within [0, 100]. */
  lemma ScheduleProgressMonotone(n: nat, j: nat, k: nat)
    requires j <= k < 2 * n + 2
    ensures Fits(Schedule(n)[j], n) && Fits(Schedule(n)[k], n)
    ensures 0.0 <= ProgressOf(Schedule(n)[j], n) <= ProgressOf(Schedule(n)[k], n) <= 100.0
  {
    ScheduleAt(n, j);
    ScheduleAt(n, k);
    if n > 0 && j < 2 * n + 1 {
      ScheduleProgress(n, j);
      if k == 2 * n + 1 {
        ShareBounds(n, j, j);
      } else {
        ScheduleProgress(n, k);
        ShareBounds(n, j, k);
      }
    }
  }

  // ----- one record, one list -------------------------------------------------

  /** Taking one more phase of a schedule is one more `setWorkflows` call. */
  lemma Extend(ws: seq<Workflow>, id: string, src: Workflow, ps: seq<Phase>, m: nat)
    requires AllFit(ps, |src.steps|) && m < |ps|
    ensures AllFit(ps[..m], |src.steps|) && AllFit(ps[..m + 1], |src.steps|)
    ensures ApplyAll(ws, id, src, ps[..m + 1]) == Update(ApplyAll(ws, id, src, ps[..m]), id, ps[m], src)
    ensures Trace(ws, id, src, ps[..m + 1]) == Trace(ws, id, src, ps[..m]) + [ApplyAll(ws, id, src, ps[..m + 1])]
  {
    assert ps[..m + 1][..m] == ps[..m];
  }

  /** One iteration of the loop: the updates for the start and the completion of step i. */
  lemma ExtendByStep(ws: seq<Workflow>, id: string, src: Workflow, i: nat)
    requires i < |src.steps|
    ensures AllFit(Schedule(|src.steps|)[..2 * i + 1], |src.steps|)
    ensures AllFit(Schedule(|src.steps|)[..2 * i + 3], |src.steps|)
    ensures var S := Schedule(|src.steps|);
            var before := ApplyAll(ws, id, src, S[..2 * i + 1]);
            var running := Update(before, id, Start(i), src);
            var finished := Update(running, id, Finish(i), src);
            && ApplyAll(ws, id, src, S[..2 * i + 3]) == finished
            && Trace(ws, id, src, S[..2 * i + 3]) == Trace(ws, id, src, S[..2 * i + 1]) + [running, finished]
  {
    var S := Schedule(|src.steps|);
    ScheduleFits(|src.steps|);
    SchedulePair(|src.steps|, i);
    Extend(ws, id, src, S, 2 * i + 1);
    Extend(ws, id, src, S, 2 * i + 2);
  }

  /** The first update of the run, and the last. */
  lemma ExtendAtEnds(ws: seq<Workflow>, id: string, src: Workflow)
    ensures var S := Schedule(|src.steps|);
            var n := |src.steps|;
            AllFit(S, n) && AllFit(S[..1], n) && AllFit(S[..2 * n + 1], n)
    ensures var S := Schedule(|src.steps|);
            var n := |src.steps|;
            && ApplyAll(ws, id, src, S[..1]) == Update(ws, id, Begin, src)
            && Trace(ws, id, src, S[..1]) == [Update(ws, id, Begin, src)]
            && ApplyAll(ws, id, src, S) == Update(ApplyAll(ws, id, src, S[..2 * n + 1]), id, End, src)
            && Trace(ws, id, src, S) == Trace(ws, id, src, S[..2 * n + 1]) + [ApplyAll(ws, id, src, S)]
  {
    var n := |src.steps|;
    var S := Schedule(n);
    ScheduleFits(n);
    ScheduleOrder(n);
    Extend(ws, id, src, S, 0);
    assert S[..0] == [];
    Extend(ws, id, src, S, 2 * n + 1);
    assert S[..2 * n + 2] == S;
  }

  /** A list update changes only the records with the matching id, and each of
      those undergoes the same sequence of record updates. */
  lemma {:induction false} ApplyAllPointwise(ws: seq<Workflow>, id: string, src: Workflow, ps: seq<Phase>)
    requires AllFit(ps, |src.steps|)
    ensures |ApplyAll(ws, id, src, ps)| == |ws|
    ensures forall j :: 0 <= j < |ws| ==>
              ApplyAll(ws, id, src, ps)[j] == if ws[j].id == id then Chain(ws[j], src, ps) else ws[j]
    decreases |ps|
  {
    if ps != [] {
      var init := ps[..|ps| - 1];
      ApplyAllPointwise(ws, id, src, init);
      var prev := ApplyAll(ws, id, src, init);
      assert ApplyAll(ws, id, src, ps) == Update(prev, id, ps[|ps| - 1], src);
      forall j | 0 <= j < |ws|
        ensures ApplyAll(ws, id, src, ps)[j] == if ws[j].id == id then Chain(ws[j], src, ps) else ws[j]
      {
        ChainKeepsStepIds(ws[j], src, init);
      }
    }
  }

  /** Entry k of a trace is the list after the first k + 1 updates. */
  lemma {:induction false} TraceAt(ws: seq<Workflow>, id: string, src: Workflow, ps: seq<Phase>, k: nat)
    requires AllFit(ps, |src.steps|) && k < |ps|
    ensures |Trace(ws, id, src, ps)| == |ps|
    ensures AllFit(ps[..k + 1], |src.steps|)
    ensures Trace(ws, id, src, ps)[k] == ApplyAll(ws, id, src, ps[..k + 1])
    decreases |ps|
  {
    var init := ps[..|ps| - 1];
    if k < |ps| - 1 {
      TraceAt(ws, id, src, init, k);
      assert init[..k + 1] == ps[..k + 1];
    } else {
      assert ps[..k + 1] == ps;
      if |ps| > 1 {
        TraceAt(ws, id, src, init, 0);
      }
    }
  }

  /** Record updates keep the number of steps and every step's id. */
  lemma {:induction false} ChainKeepsStepIds(w: Workflow, src: Workflow, ps: seq<Phase>)
    requires AllFit(ps, |src.steps|)
    ensures Chain(w, src, ps).id == w.id
    ensures |Chain(w, src, ps).steps| == |w.steps|
    ensures forall j :: 0 <= j < |w.steps| ==> Chain(w, src, ps).steps[j].id == w.steps[j].id
    decreases |ps|
  {
    if ps != [] {
      ChainKeepsStepIds(w, src, ps[..|ps| - 1]);
    }
  }

  /** Step j of the found workflow after the first k + 1 updates of its run. */
  function StepAt(s: WorkflowStep, j: nat, k: nat): WorkflowStep {
    if 2 * j + 2 <= k then Done(s)
    else if 2 * j + 1 == k then s.(status := StepStatus.Running)
    else s
  }

  /** Record updates change only the steps, the status and the progress. */
  lemma {:induction false} ChainOtherFields(w: Workflow, src: Workflow, ps: seq<Phase>)
    requires AllFit(ps, |src.steps|)
    ensures Chain(w, src, ps).(steps := w.steps, status := w.status, progress := w.progress) == w
    decreases |ps|
  {
    if ps != [] {
      ChainOtherFields(w, src, ps[..|ps| - 1]);
    }
  }

  /** Update k of a schedule applied after the first k. */
  lemma ChainSnoc(w: Workflow, src: Workflow, ps: seq<Phase>, k: nat)
    requires AllFit(ps, |src.steps|) && k < |ps|
    ensures AllFit(ps[..k], |src.steps|) && AllFit(ps[..k + 1], |src.steps|) && Fits(ps[k], |src.steps|)
    ensures Chain(w, src, ps[..k + 1]) == Apply(ps[k], src, Chain(w, src, ps[..k]))
  {
    assert ps[..k + 1][..k] == ps[..k];
  }

  /** Setting step i running, when the steps before it are done and the rest untouched. */
  lemma StartStep(steps: seq<WorkflowStep>, src: Workflow, i: nat)
    requires i < |src.steps| && UniqueStepIds(src.steps) && |steps| == |src.steps|
    requires forall j :: 0 <= j < |steps| ==> steps[j] == StepAt(src.steps[j], j, 2 * i)
    ensures var r := MarkRunning(steps, src.steps[i].id);
            |r| == |steps| && forall j :: 0 <= j < |r| ==> r[j] == StepAt(src.steps[j], j, 2 * i + 1)
  {
    var r := MarkRunning(steps, src.steps[i].id);
    forall j | 0 <= j < |r| ensures r[j] == StepAt(src.steps[j], j, 2 * i + 1) {
      assert steps[j].id == src.steps[j].id;
      assert steps[j].id == src.steps[i].id <==> j == i;
    }
  }

  /** Completing step i, once it is running. */
  lemma FinishStep(steps: seq<WorkflowStep>, src: Workflow, i: nat)
    requires i < |src.steps| && UniqueStepIds(src.steps) && |steps| == |src.steps|
    requires forall j :: 0 <= j < |steps| ==> steps[j] == StepAt(src.steps[j], j, 2 * i + 1)
    ensures var r := MarkCompleted(steps, src.steps[i].id, StepOutput(src.steps[i].name));
            |r| == |steps| && forall j :: 0 <= j < |r| ==> r[j] == StepAt(src.steps[j], j, 2 * i + 2)
  {
    var r := MarkCompleted(steps, src.steps[i].id, StepOutput(src.steps[i].name));
    forall j | 0 <= j < |r| ensures r[j] == StepAt(src.steps[j], j, 2 * i + 2) {
      assert steps[j].id == src.steps[j].id;
      assert steps[j].id == src.steps[i].id <==> j == i;
    }
  }

  /** The first update of a run leaves the steps alone. */
  lemma ChainStepsBegin(src: Workflow)
    ensures AllFit(Schedule(|src.steps|)[..1], |src.steps|)
    ensures Chain(src, src, Schedule(|src.steps|)[..1]).steps == src.steps
  {
    var S := Schedule(|src.steps|);
    ScheduleFits(|src.steps|);
    ScheduleOrder(|src.steps|);
    ChainSnoc(src, src, S, 0);
    assert S[..0] == [];
  }

  /** The steps of a workflow with distinct step ids once step i has been set
      running (update 2i + 1) and once it has been completed (update 2i + 2):
      step j is completed once its Finish has happened, running between its
      Start and its Finish, and untouched before its Start. */
  lemma {:induction false} ChainStepsPair(src: Workflow, i: nat)
    requires UniqueStepIds(src.steps) && i < |src.steps|
    ensures AllFit(Schedule(|src.steps|)[..2 * i + 2], |src.steps|)
    ensures AllFit(Schedule(|src.steps|)[..2 * i + 3], |src.steps|)
    ensures var c := Chain(src, src, Schedule(|src.steps|)[..2 * i + 2]);
            && |c.steps| == |src.steps|
            && forall j :: 0 <= j < |src.steps| ==> c.steps[j] == StepAt(src.steps[j], j, 2 * i + 1)
    ensures var c := Chain(src, src, Schedule(|src.steps|)[..2 * i + 3]);
            && |c.steps| == |src.steps|
            && forall j :: 0 <= j < |src.steps| ==> c.steps[j] == StepAt(src.steps[j], j, 2 * i + 2)
  {
    var n := |src.steps|;
    var S := Schedule(n);
    ScheduleFits(n);
    if i == 0 {
      ChainStepsBegin(src);
    } else {
      ChainStepsPair(src, i - 1);
    }
    var before := Chain(src, src, S[..2 * i + 1]);
    SchedulePair(n, i);
    ChainSnoc(src, src, S, 2 * i + 1);
    ChainSnoc(src, src, S, 2 * i + 2);
    StartStep(before.steps, src, i);
    FinishStep(Chain(src, src, S[..2 * i + 2]).steps, src, i);
  }

  /** After its whole run, every step of a workflow with distinct step ids is done. */
  lemma ChainStepsEnd(src: Workflow)
    requires UniqueStepIds(src.steps)
    ensures AllFit(Schedule(|src.steps|), |src.steps|)
    ensures var c := Chain(src, src, Schedule(|src.steps|));
            && |c.steps| == |src.steps|
            && forall j :: 0 <= j < |src.steps| ==> c.steps[j] == Done(src.steps[j])
  {
    var n := |src.steps|;
    var S := Schedule(n);
    ScheduleFits(n);
    ScheduleOrder(n);
    ChainSnoc(src, src, S, 2 * n + 1);
    assert S[..2 * n + 2] == S;
    if n == 0 {
      ChainStepsBegin(src);
    } else {
      ChainStepsPair(src, n - 1);
    }
  }

  // ----- what a run does, stated on Run and RunTrace --------------------------

  lemma RunUnfold(ws: seq<Workflow>, id: string)
    requires FindIndex(ws, id).Some?
    ensures var src := ws[FindIndex(ws, id).value];
            && AllFit(Schedule(|src.steps|), |src.steps|)
            && RunTrace(ws, id) == Trace(ws, id, src, Schedule(|src.steps|))
            && Run(ws, id) == ApplyAll(ws, id, src, Schedule(|src.steps|))
  {
    ScheduleFits(|ws[FindIndex(ws, id).value].steps|);
  }

  /** The first update of a run sets the matching workflows to running with
      progress 0 and leaves every other workflow as it was. */
  lemma RunBegins(ws: seq<Workflow>, id: string)
    requires FindIndex(ws, id).Some?
    ensures |RunTrace(ws, id)| >= 2 && |RunTrace(ws, id)[0]| == |ws|
    ensures forall j :: 0 <= j < |ws| ==>
              RunTrace(ws, id)[0][j] ==
                if ws[j].id == id then ws[j].(status := WorkflowStatus.Running, progress := 0.0) else ws[j]
  {
    var f := FindIndex(ws, id).value;
    var src := ws[f];
    var S := Schedule(|src.steps|);
    ScheduleFits(|src.steps|);
    ScheduleAt(|src.steps|, 0);
    TraceAt(ws, id, src, S, 0);
    assert S[..1] == [Begin];
    assert [Begin][..0] == [];
    ApplyAllPointwise(ws, id, src, S[..1]);
  }

  /** Over the updates of a run, the progress of a matching workflow never
      decreases and stays within [0, 100]. */
  lemma RunProgressMonotone(ws: seq<Workflow>, id: string, m: nat, j: nat, k: nat)
    requires FindIndex(ws, id).Some? && m < |ws| && ws[m].id == id
    requires j <= k < |RunTrace(ws, id)|
    ensures |RunTrace(ws, id)[j]| == |ws| && |RunTrace(ws, id)[k]| == |ws|
    ensures 0.0 <= RunTrace(ws, id)[j][m].progress <= RunTrace(ws, id)[k][m].progress <= 100.0
  {
    RunUnfold(ws, id);
    TraceProgressMonotone(ws, id, ws[FindIndex(ws, id).value], m, j, k);
  }

  lemma TraceProgressMonotone(ws: seq<Workflow>, id: string, src: Workflow, m: nat, j: nat, k: nat)
    requires m < |ws| && ws[m].id == id && j <= k < 2 * |src.steps| + 2
    requires AllFit(Schedule(|src.steps|), |src.steps|)
    ensures var tr := Trace(ws, id, src, Schedule(|src.steps|));
            && |tr| == 2 * |src.steps| + 2 && |tr[j]| == |ws| && |tr[k]| == |ws|
            && 0.0 <= tr[j][m].progress <= tr[k][m].progress <= 100.0
  {
    TraceChain(ws, id, src, m, j);
    TraceChain(ws, id, src, m, k);
    ChainProgressAt(ws[m], src, j);
    ChainProgressAt(ws[m], src, k);
    ScheduleProgressMonotone(|src.steps|, j, k);
  }

  /** After the first k + 1 updates of a run, a record's progress is the one
      update k sets. */
  lemma ChainProgressAt(w: Workflow, src: Workflow, k: nat)
    requires k < 2 * |src.steps| + 2 && AllFit(Schedule(|src.steps|), |src.steps|)
    ensures AllFit(Schedule(|src.steps|)[..k + 1], |src.steps|) && Fits(Schedule(|src.steps|)[k], |src.steps|)
    ensures Chain(w, src, Schedule(|src.steps|)[..k + 1]).progress == ProgressOf(Schedule(|src.steps|)[k], |src.steps|)
  {
    var S := Schedule(|src.steps|);
    assert S[..k + 1][k] == S[k];
    ChainProgress(w, src, S[..k + 1]);
  }

  /** Entry k of the trace of a run over src's steps holds, at the position of a
      matching workflow, that workflow after the first k + 1 updates. */
  lemma TraceChain(ws: seq<Workflow>, id: string, src: Workflow, m: nat, k: nat)
    requires m < |ws| && ws[m].id == id && k < 2 * |src.steps| + 2
    requires AllFit(Schedule(|src.steps|), |src.steps|)
    ensures AllFit(Schedule(|src.steps|)[..k + 1], |src.steps|)
    ensures var tr := Trace(ws, id, src, Schedule(|src.steps|));
            && |tr| == 2 * |src.steps| + 2 && |tr[k]| == |ws|
            && tr[k][m] == Chain(ws[m], src, Schedule(|src.steps|)[..k + 1])
  {
    var S := Schedule(|src.steps|);
    TraceAt(ws, id, src, S, k);
    ApplyAllPointwise(ws, id, src, S[..k + 1]);
  }

  /** Step i of the found workflow is set running only once every earlier step
      has completed and while every later step is untouched; it is completed
      (with its output) before step i + 1 starts. Progress is (i + 0.5)/n * 100
      while it runs and (i + 1)/n * 100 once it has completed. */
  lemma RunStepOrder(ws: seq<Workflow>, id: string, f: nat, i: nat)
    requires FindIndex(ws, id) == Some(f)
    requires UniqueStepIds(ws[f].steps) && i < |ws[f].steps|
    ensures |RunTrace(ws, id)| == 2 * |ws[f].steps| + 2
    ensures |RunTrace(ws, id)[2 * i + 1]| == |ws| && |RunTrace(ws, id)[2 * i + 2]| == |ws|
    ensures |RunTrace(ws, id)[2 * i + 1][f].steps| == |ws[f].steps|
    ensures |RunTrace(ws, id)[2 * i + 2][f].steps| == |ws[f].steps|
    ensures forall j :: 0 <= j < |ws[f].steps| ==>
              RunTrace(ws, id)[2 * i + 1][f].steps[j] ==
                if j < i then Done(ws[f].steps[j])
                else if j == i then ws[f].steps[j].(status := StepStatus.Running)
                else ws[f].steps[j]
    ensures forall j :: 0 <= j < |ws[f].steps| ==>
              RunTrace(ws, id)[2 * i + 2][f].steps[j] ==
                if j <= i then Done(ws[f].steps[j]) else ws[f].steps[j]
  {
    RunUnfold(ws, id);
    StepStates(ws[f], i);
    TraceChain(ws, id, ws[f], f, 2 * i + 1);
    TraceChain(ws, id, ws[f], f, 2 * i + 2);
  }

  /** The steps of a workflow with distinct step ids once step i has been set
      running, and once it has been completed. */
  lemma StepStates(src: Workflow, i: nat)
    requires UniqueStepIds(src.steps) && i < |src.steps|
    ensures AllFit(Schedule(|src.steps|)[..2 * i + 2], |src.steps|)
    ensures AllFit(Schedule(|src.steps|)[..2 * i + 3], |src.steps|)
    ensures var running := Chain(src, src, Schedule(|src.steps|)[..2 * i + 2]);
            && |running.steps| == |src.steps|
            && forall j :: 0 <= j < |src.steps| ==>
                 running.steps[j] ==
                   if j < i then Done(src.steps[j])
                   else if j == i then src.steps[j].(status := StepStatus.Running)
                   else src.steps[j]
    ensures var finished := Chain(src, src, Schedule(|src.steps|)[..2 * i + 3]);
            && |finished.steps| == |src.steps|
            && forall j :: 0 <= j < |src.steps| ==>
                 finished.steps[j] == if j <= i then Done(src.steps[j]) else src.steps[j]
  {
    ChainStepsPair(src, i);
  }

  /** The progress of the found workflow while step i runs and once it has completed. */
  lemma RunStepProgress(ws: seq<Workflow>, id: string, f: nat, i: nat)
    requires FindIndex(ws, id) == Some(f)
    requires i < |ws[f].steps|
    ensures |RunTrace(ws, id)| == 2 * |ws[f].steps| + 2
    ensures |RunTrace(ws, id)[2 * i + 1]| == |ws| && |RunTrace(ws, id)[2 * i + 2]| == |ws|
    ensures RunTrace(ws, id)[2 * i + 1][f].progress == ((i as real + 0.5) / (|ws[f].steps| as real)) * 100.0
    ensures RunTrace(ws, id)[2 * i + 2][f].progress == ((i as real + 1.0) / (|ws[f].steps| as real)) * 100.0
  {
    RunUnfold(ws, id);
    StepProgress(ws[f], ws[f], i);
    TraceChain(ws, id, ws[f], f, 2 * i + 1);
    TraceChain(ws, id, ws[f], f, 2 * i + 2);
  }

  /** A record's progress after the updates up to the start, and up to the
      completion, of step i. */
  lemma StepProgress(w: Workflow, src: Workflow, i: nat)
    requires i < |src.steps|
    ensures AllFit(Schedule(|src.steps|)[..2 * i + 2], |src.steps|)
    ensures AllFit(Schedule(|src.steps|)[..2 * i + 3], |src.steps|)
    ensures Chain(w, src, Schedule(|src.steps|)[..2 * i + 2]).progress
              == ((i as real + 0.5) / (|src.steps| as real)) * 100.0
    ensures Chain(w, src, Schedule(|src.steps|)[..2 * i + 3]).progress
              == ((i as real + 1.0) / (|src.steps| as real)) * 100.0
  {
    var n := |src.steps|;
    ScheduleFits(n);
    SchedulePair(n, i);
    ChainProgressAt(w, src, 2 * i + 1);
    ChainProgressAt(w, src, 2 * i + 2);
    assert ProgressOf(Start(i), n) == ((i as real + 0.5) / (n as real)) * 100.0;
    assert ProgressOf(Finish(i), n) == ((i as real + 1.0) / (n as real)) * 100.0;
  }

  /** A record's progress is the one its last update set. */
  lemma ChainProgress(w: Workflow, src: Workflow, ps: seq<Phase>)
    requires AllFit(ps, |src.steps|) && ps != []
    ensures Chain(w, src, ps).progress == ProgressOf(ps[|ps| - 1], |src.steps|)
  {
    assert Chain(w, src, ps) == Apply(ps[|ps| - 1], src, Chain(w, src, ps[..|ps| - 1]));
  }

  /** When the run returns, every matching workflow is completed with progress
      exactly 100 (also with zero steps), every other workflow is as it was, and
      every step of the found workflow is completed with its output. */
  lemma RunCompletes(ws: seq<Workflow>, id: string)
    requires FindIndex(ws, id).Some?
    ensures var f := FindIndex(ws, id).value;
            var tr: seq<seq<Workflow>> := RunTrace(ws, id);
            && |tr| == 2 * |ws[f].steps| + 2
            && tr[|tr| - 1] == Run(ws, id)
    ensures |Run(ws, id)| == |ws|
    ensures forall j :: 0 <= j < |ws| && ws[j].id != id ==> Run(ws, id)[j] == ws[j]
    ensures forall j :: 0 <= j < |ws| && ws[j].id == id ==>
              Run(ws, id)[j].status == WorkflowStatus.Completed && Run(ws, id)[j].progress == 100.0
    ensures var f := FindIndex(ws, id).value;
            var w := Run(ws, id)[f];
            UniqueStepIds(ws[f].steps) ==>
              && w.(steps := ws[f].steps, status := ws[f].status, progress := ws[f].progress) == ws[f]
              && |w.steps| == |ws[f].steps|
              && forall j :: 0 <= j < |w.steps| ==> w.steps[j] == Done(ws[f].steps[j])
  {
    var f := FindIndex(ws, id).value;
    var src := ws[f];
    RunUnfold(ws, id);
    TraceLast(ws, id, src);
    FinalList(ws, id, src);
    if UniqueStepIds(src.steps) {
      FinalSteps(src);
    }
  }

  /** The last entry of a run's trace is the list the run leaves behind. */
  lemma TraceLast(ws: seq<Workflow>, id: string, src: Workflow)
    requires AllFit(Schedule(|src.steps|), |src.steps|)
    ensures var tr := Trace(ws, id, src, Schedule(|src.steps|));
            |tr| == 2 * |src.steps| + 2 && tr[|tr| - 1] == ApplyAll(ws, id, src, Schedule(|src.steps|))
  {
    var S := Schedule(|src.steps|);
    TraceAt(ws, id, src, S, 2 * |src.steps| + 1);
    assert S[..2 * |src.steps| + 2] == S;
  }

  /** A record after a whole run is completed with progress 100. */
  lemma ChainEnd(w: Workflow, src: Workflow)
    requires AllFit(Schedule(|src.steps|), |src.steps|)
    ensures Chain(w, src, Schedule(|src.steps|)).status == WorkflowStatus.Completed
    ensures Chain(w, src, Schedule(|src.steps|)).progress == 100.0
  {
    var n := |src.steps|;
    var S := Schedule(n);
    ScheduleOrder(n);
    assert Chain(w, src, S) == Apply(End, src, Chain(w, src, S[..2 * n + 1]));
  }

  /** After a whole run the matching records are completed with progress 100 and
      the others are as they were. */
  lemma FinalList(ws: seq<Workflow>, id: string, src: Workflow)
    requires AllFit(Schedule(|src.steps|), |src.steps|)
    ensures var r := ApplyAll(ws, id, src, Schedule(|src.steps|));
            && |r| == |ws|
            && (forall j :: 0 <= j < |ws| && ws[j].id != id ==> r[j] == ws[j])
            && (forall j :: 0 <= j < |ws| && ws[j].id == id ==>
                  r[j] == Chain(ws[j], src, Schedule(|src.steps|))
                  && r[j].status == WorkflowStatus.Completed && r[j].progress == 100.0)
  {
    ApplyAllPointwise(ws, id, src, Schedule(|src.steps|));
    forall j | 0 <= j < |ws| && ws[j].id == id
      ensures Chain(ws[j], src, Schedule(|src.steps|)).status == WorkflowStatus.Completed
      ensures Chain(ws[j], src, Schedule(|src.steps|)).progress == 100.0
    {
      ChainEnd(ws[j], src);
    }
  }

  /** After its whole run a workflow with distinct step ids has every step
      completed with its output, and is otherwise unchanged. */
  lemma FinalSteps(src: Workflow)
    requires UniqueStepIds(src.steps)
    ensures AllFit(Schedule(|src.steps|), |src.steps|)
    ensures var w := Chain(src, src, Schedule(|src.steps|));
            && w.(steps := src.steps, status := src.status, progress := src.progress) == src
            && |w.steps| == |src.steps|
            && forall j :: 0 <= j < |w.steps| ==> w.steps[j] == Done(src.steps[j])
  {
    var n := |src.steps|;
    var S := Schedule(n);
    ScheduleFits(n);
    ChainStepsEnd(src);
    ChainOtherFields(src, src, S);
  }

  // ----- progress against the step statuses ----------------------------------

  /** How many of the steps have status st. */
  function CountStatus(steps: seq<WorkflowStep>, st: StepStatus): (c: nat)
    ensures c <= |steps|
  {
    if steps == [] then 0
    else CountStatus(steps[..|steps| - 1], st) + (if steps[|steps| - 1].status == st then 1 else 0)
  }

  /** The progress the step statuses stand for: full credit for a completed
      step and half credit for a running one. */
  function StepsProgress(steps: seq<WorkflowStep>): real
    requires |steps| > 0
  {
    ((CountStatus(steps, StepStatus.Completed) as real
      + 0.5 * CountStatus(steps, StepStatus.Running) as real) / (|steps| as real)) * 100.0
  }

  /** The status of step j when the first c steps are completed, the next r are
      running and the rest are pending. */
  function StatusAt(j: nat, c: nat, r: nat): StepStatus {
    if j < c then StepStatus.Completed else if j < c + r then StepStatus.Running else StepStatus.Pending
  }

  lemma {:induction false} CountPattern(steps: seq<WorkflowStep>, c: nat, r: nat)
    requires forall j :: 0 <= j < |steps| ==> steps[j].status == StatusAt(j, c, r)
    ensures CountStatus(steps, StepStatus.Completed) == Min(c, |steps|)
    ensures CountStatus(steps, StepStatus.Running) == Min(c + r, |steps|) - Min(c, |steps|)
  {
    if steps != [] {
      var init := steps[..|steps| - 1];
      assert forall j :: 0 <= j < |init| ==> init[j] == steps[j];
      CountPattern(init, c, r);
    }
  }

  /** Steps with i completed and one running stand for (i + 0.5)/n * 100; steps
      with i + 1 completed and none running for (i + 1)/n * 100. */
  lemma PatternProgress(steps: seq<WorkflowStep>, i: nat, r: nat)
    requires i < |steps| && r <= 1
    requires forall j :: 0 <= j < |steps| ==> steps[j].status == StatusAt(j, i + 1 - r, r)
    ensures StepsProgress(steps) == ((i as real + (if r == 1 then 0.5 else 1.0)) / (|steps| as real)) * 100.0
  {
    CountPattern(steps, i + 1 - r, r);
  }

  /** For a run that starts with every step pending, the progress set while step
      i runs and once it has completed is exactly the progress its steps'
      statuses stand for. */
  lemma RunProgressFollowsSteps(ws: seq<Workflow>, id: string, f: nat, i: nat)
    requires FindIndex(ws, id) == Some(f)
    requires UniqueStepIds(ws[f].steps) && i < |ws[f].steps|
    requires forall j :: 0 <= j < |ws[f].steps| ==> ws[f].steps[j].status == StepStatus.Pending
    ensures |RunTrace(ws, id)| == 2 * |ws[f].steps| + 2
    ensures |RunTrace(ws, id)[2 * i + 1]| == |ws| && |RunTrace(ws, id)[2 * i + 2]| == |ws|
    ensures |RunTrace(ws, id)[2 * i + 1][f].steps| == |ws[f].steps|
    ensures |RunTrace(ws, id)[2 * i + 2][f].steps| == |ws[f].steps|
    ensures RunTrace(ws, id)[2 * i + 1][f].progress == StepsProgress(RunTrace(ws, id)[2 * i + 1][f].steps)
    ensures RunTrace(ws, id)[2 * i + 2][f].progress == StepsProgress(RunTrace(ws, id)[2 * i + 2][f].steps)
  {
    var n := |ws[f].steps|;
    RunStepOrder(ws, id, f, i);
    RunStepProgress(ws, id, f, i);
    var tr: seq<seq<Workflow>> := RunTrace(ws, id);
    var running := tr[2 * i + 1][f].steps;
    var finished := tr[2 * i + 2][f].steps;
    forall j | 0 <= j < n ensures running[j].status == StatusAt(j, i, 1) {
      assert running[j] == if j < i then Done(ws[f].steps[j])
                           else if j == i then ws[f].steps[j].(status := StepStatus.Running)
                           else ws[f].steps[j];
      assert ws[f].steps[j].status == StepStatus.Pending;
    }
    forall j | 0 <= j < n ensures finished[j].status == StatusAt(j, i + 1, 0) {
      assert finished[j] == if j <= i then Done(ws[f].steps[j]) else ws[f].steps[j];
      assert ws[f].steps[j].status == StepStatus.Pending;
    }
    PatternProgress(running, i, 1);
    PatternProgress(finished, i, 0);
  }

  /** What every workflow record satisfies: progress within [0, 100] and step ids
      unique within the workflow. */
  predicate WorkflowOk(w: Workflow) {
    0.0 <= w.progress <= 100.0 && UniqueStepIds(w.steps)
  }

  lemma RunKeepsWorkflowsOk(ws: seq<Workflow>, id: string)
    requires forall j :: 0 <= j < |ws| ==> WorkflowOk(ws[j])
    ensures forall j :: 0 <= j < |Run(ws, id)| ==> WorkflowOk(Run(ws, id)[j])
  {
    if FindIndex(ws, id).Some? {
      var src := ws[FindIndex(ws, id).value];
      ScheduleFits(|src.steps|);
      RunCompletes(ws, id);
      ApplyAllPointwise(ws, id, src, Schedule(|src.steps|));
      forall j | 0 <= j < |ws| && ws[j].id == id ensures UniqueStepIds(Run(ws, id)[j].steps) {
        ChainKeepsStepIds(ws[j], src, Schedule(|src.steps|));
      }
    }
  }


  // ---------------------------------------------------------------------------
  // Tasks
  // ---------------------------------------------------------------------------

  /** The task `createTask` builds: pending, with no agent and no completion time. */
  function NewTask(id: string, title: string, description: string, priority: Priority, now: Timestamp): Task {
    Task(id, title, description, priority, TaskStatus.Pending, None, now, None)
  }

  /** `tasks.map(t => t.id === taskId ? { ...t, status: 'in_progress' } : t)` */
  function StartTask(ts: seq<Task>, taskId: string): seq<Task> {
    seq(|ts|, j requires 0 <= j < |ts| =>
      if ts[j].id == taskId then ts[j].(status := TaskStatus.InProgress) else ts[j])
  }

  /** `tasks.map(t => t.id === taskId ? { ...t, status: 'completed', completedAt: now } : t)` */
  function FinishTask(ts: seq<Task>, taskId: string, now: Timestamp): seq<Task> {
    seq(|ts|, j requires 0 <= j < |ts| =>
      if ts[j].id == taskId then ts[j].(status := TaskStatus.Completed, completedAt := Some(now)) else ts[j])
  }

  /** `tasks.filter(t => t.status === 'pending').length`, the count the task list shows. */
  function PendingCount(ts: seq<Task>): nat {
    if ts == [] then 0
    else (if ts[0].status == TaskStatus.Pending then 1 else 0) + PendingCount(ts[1..])
  }

  /** A completion time is present exactly on completed tasks. */
  predicate StampsAgree(t: Task) {
    t.status == TaskStatus.Completed <==> t.completedAt.Some?
  }

  predicate UniqueTaskIds(ts: seq<Task>) {
    forall j, k :: 0 <= j < k < |ts| ==> ts[j].id != ts[k].id
  }

  lemma {:induction false} PendingCountOfTail(ts: seq<Task>, t: Task)
    ensures PendingCount([t] + ts) == (if t.status == TaskStatus.Pending then 1 else 0) + PendingCount(ts)
  {
    assert ([t] + ts)[1..] == ts;
  }

  /** Starting the one pending task with a given id lowers the pending count by one. */
  lemma {:induction false} StartTaskPendingCount(ts: seq<Task>, taskId: string, k: nat)
    requires UniqueTaskIds(ts)
    requires k < |ts| && ts[k].id == taskId && ts[k].status == TaskStatus.Pending
    ensures PendingCount(StartTask(ts, taskId)) == PendingCount(ts) - 1
  {
    var r := StartTask(ts, taskId);
    assert r == [r[0]] + r[1..];
    assert ts == [ts[0]] + ts[1..];
    PendingCountOfTail(r[1..], r[0]);
    PendingCountOfTail(ts[1..], ts[0]);
    if k == 0 {
      assert r[1..] == ts[1..];
    } else {
      assert r[1..] == StartTask(ts[1..], taskId);
      StartTaskPendingCount(ts[1..], taskId, k - 1);
    }
  }

  /** Completing tasks that are no longer pending leaves the pending count as it was. */
  lemma {:induction false} FinishTaskPendingCount(ts: seq<Task>, taskId: string, now: Timestamp)
    requires forall j :: 0 <= j < |ts| && ts[j].id == taskId ==> ts[j].status != TaskStatus.Pending
    ensures PendingCount(FinishTask(ts, taskId, now)) == PendingCount(ts)
  {
    if ts != [] {
      var r := FinishTask(ts, taskId, now);
      assert r == [r[0]] + r[1..];
      assert ts == [ts[0]] + ts[1..];
      assert r[1..] == FinishTask(ts[1..], taskId, now);
      PendingCountOfTail(r[1..], r[0]);
      PendingCountOfTail(ts[1..], ts[0]);
      FinishTaskPendingCount(ts[1..], taskId, now);
    }
  }

  /** Running the one pending task with a given id to completion lowers the
      pending count by one, and keeps completion times on completed tasks only. */
  lemma ExecuteTaskEffect(ts: seq<Task>, taskId: string, k: nat, now: Timestamp)
    requires UniqueTaskIds(ts)
    requires k < |ts| && ts[k].id == taskId && ts[k].status == TaskStatus.Pending
    requires forall j :: 0 <= j < |ts| ==> StampsAgree(ts[j])
    ensures PendingCount(FinishTask(StartTask(ts, taskId), taskId, now)) == PendingCount(ts) - 1
    ensures forall j :: 0 <= j < |ts| ==> StampsAgree(FinishTask(StartTask(ts, taskId), taskId, now)[j])
  {
    StartTaskPendingCount(ts, taskId, k);
    FinishTaskPendingCount(StartTask(ts, taskId), taskId, now);
  }


  // ---------------------------------------------------------------------------
  // The component's state
  // ---------------------------------------------------------------------------

  // The display texts of the initial data.
  const ResearchAgentName: string := "Agente de Pesquisa"
  const ResearchAgentDescription: string := "Especializado em buscar e analisar informações na web e documentos"
  const PlanningAgentName: string := "Agente de Planejamento"
  const PlanningAgentDescription: string := "Cria planos detalhados e organiza tarefas complexas"
  const ExecutionAgentName: string := "Agente de Execução"
  const ExecutionAgentDescription: string := "Executa tarefas automatizadas e integrações com sistemas"
  const MarketResearchName: string := "Pesquisa de Mercado Completa"
  const MarketResearchDescription: string := "Análise abrangente de mercado com relatório final"
  const CollectStepName: string := "Coleta de Dados"
  const CollectStepDescription: string := "Buscar informações relevantes sobre o mercado"
  const AnalyseStepName: string := "Análise de Dados"
  const AnalyseStepDescription: string := "Processar e analisar as informações coletadas"
  const ReportStepName: string := "Geração de Relatório"
  const ReportStepDescription: string := "Criar relatório final com insights e recomendações"
  const SupplierTaskTitle: string := "Analisar documentos de fornecedores"
  const SupplierTaskDescription: string := "Revisar e extrair informações dos contratos de fornecedores"
  const ScheduleTaskTitle: string := "Criar cronograma de projeto"
  const ScheduleTaskDescription: string := "Desenvolver timeline detalhado para o novo projeto"

  /** The three agents the panel starts with; nothing ever changes them. */
  function InitialAgents(): seq<Agent> {
    [ Agent("research", ResearchAgentName, ResearchAgentDescription,
            AgentStatus.Idle, 0.0, ["Web Search", "Document Analysis", "Data Extraction"], None),
      Agent("planning", PlanningAgentName, PlanningAgentDescription,
            AgentStatus.Idle, 0.0, ["Task Planning", "Project Management", "Resource Allocation"], None),
      Agent("execution", ExecutionAgentName, ExecutionAgentDescription,
            AgentStatus.Idle, 0.0, ["API Integration", "Automation", "Data Processing"], None) ]
  }

  /** The one workflow the panel starts with: three pending steps. */
  function InitialWorkflows(): seq<Workflow> {
    [ Workflow("market-research", MarketResearchName, MarketResearchDescription,
        ["research", "planning"], WorkflowStatus.Draft,
        [ WorkflowStep("step1", CollectStepName, CollectStepDescription,
                       StepStatus.Pending, Some("research"), None),
          WorkflowStep("step2", AnalyseStepName, AnalyseStepDescription,
                       StepStatus.Pending, Some("planning"), None),
          WorkflowStep("step3", ReportStepName, ReportStepDescription,
                       StepStatus.Pending, Some("execution"), None) ],
        0.0) ]
  }

  /** The two pending tasks the panel starts with, created at `now`. */
  function InitialTasks(now: Timestamp): seq<Task> {
    [ Task("task1", SupplierTaskTitle, SupplierTaskDescription,
           Priority.High, TaskStatus.Pending, Some("research"), now, None),
      Task("task2", ScheduleTaskTitle, ScheduleTaskDescription,
           Priority.Medium, TaskStatus.Pending, Some("planning"), now, None) ]
  }

  /** The initial workflow has distinct step ids and progress 0; the initial
      tasks have no completion time and are not completed. */
  lemma InitialDataOk(now: Timestamp)
    ensures forall j :: 0 <= j < |InitialWorkflows()| ==> WorkflowOk(InitialWorkflows()[j])
    ensures forall j :: 0 <= j < |InitialTasks(now)| ==> StampsAgree(InitialTasks(now)[j])
  {
    var steps := InitialWorkflows()[0].steps;
    assert steps[0].id[4] == '1' && steps[1].id[4] == '2' && steps[2].id[4] == '3';
  }

  class PersonalAssistant {
    const agents: seq<Agent>
    var workflows: seq<Workflow>
    var tasks: seq<Task>
    var newTaskTitle: string
    var newTaskDescription: string
    var newTaskPriority: Priority
    /** Every value `workflows` has been set to, oldest first. */
    ghost var workflowHistory: seq<seq<Workflow>>
    /** Every value `tasks` has been set to, oldest first. */
    ghost var taskHistory: seq<seq<Task>>

    ghost predicate Valid()
      reads this
    {
      && (forall j :: 0 <= j < |workflows| ==> WorkflowOk(workflows[j]))
      && (forall j :: 0 <= j < |tasks| ==> StampsAgree(tasks[j]))
    }

    constructor (now: Timestamp)
      ensures Valid()
      ensures agents == InitialAgents() && workflows == InitialWorkflows() && tasks == InitialTasks(now)
      ensures newTaskTitle == "" && newTaskDescription == "" && newTaskPriority == Priority.Medium
      ensures workflowHistory == [] && taskHistory == []
    {
      agents := InitialAgents();
      workflows := InitialWorkflows();
      tasks := InitialTasks(now);
      newTaskTitle, newTaskDescription, newTaskPriority := "", "", Priority.Medium;
      workflowHistory, taskHistory := [], [];
      InitialDataOk(now);
    }

    /** `executeWorkflow`: run the steps of the workflow with this id in order.
        The Run button is disabled while that workflow is running. */
    method ExecuteWorkflow(workflowId: string)
      requires Valid()
      requires forall j :: 0 <= j < |workflows| && workflows[j].id == workflowId ==>
                 workflows[j].status != WorkflowStatus.Running
      modifies this
      ensures Valid()
      ensures workflows == Run(old(workflows), workflowId)
      ensures workflowHistory == old(workflowHistory) + RunTrace(old(workflows), workflowId)
      ensures FindIndex(old(workflows), workflowId).None? ==>
                workflows == old(workflows) && workflowHistory == old(workflowHistory)
      ensures tasks == old(tasks) && taskHistory == old(taskHistory)
      ensures newTaskTitle == old(newTaskTitle) && newTaskDescription == old(newTaskDescription)
      ensures newTaskPriority == old(newTaskPriority)
    {
      var found := FindIndex(workflows, workflowId);
      if found.None? {
        return;
      }
      var workflow := workflows[found.value];
      RunUnfold(workflows, workflowId);
      RunKeepsWorkflowsOk(workflows, workflowId);
      RunSchedule(workflowId, workflow);
    }

    /** The body of `executeWorkflow` once the workflow has been found: the
        update that starts the run, two updates per step, and the one that ends it. */
    method RunSchedule(workflowId: string, workflow: Workflow)
      requires AllFit(Schedule(|workflow.steps|), |workflow.steps|)
      modifies this
      ensures workflows == ApplyAll(old(workflows), workflowId, workflow, Schedule(|workflow.steps|))
      ensures workflowHistory == old(workflowHistory) + Trace(old(workflows), workflowId, workflow, Schedule(|workflow.steps|))
      ensures tasks == old(tasks) && taskHistory == old(taskHistory)
      ensures newTaskTitle == old(newTaskTitle) && newTaskDescription == old(newTaskDescription)
      ensures newTaskPriority == old(newTaskPriority)
    {
      var n := |workflow.steps|;
      ghost var ws0 := workflows;
      ghost var h0 := workflowHistory;
      ghost var S := Schedule(n);
      ExtendAtEnds(ws0, workflowId, workflow);

      SetWorkflows(workflowId, Begin, workflow);
      for i := 0 to n
        invariant AllFit(S[..2 * i + 1], n)
        invariant workflows == ApplyAll(ws0, workflowId, workflow, S[..2 * i + 1])
        invariant workflowHistory == h0 + Trace(ws0, workflowId, workflow, S[..2 * i + 1])
        invariant tasks == old(tasks) && taskHistory == old(taskHistory)
        invariant newTaskTitle == old(newTaskTitle) && newTaskDescription == old(newTaskDescription)
        invariant newTaskPriority == old(newTaskPriority)
      {
        ExtendByStep(ws0, workflowId, workflow, i);
        SetWorkflows(workflowId, Start(i), workflow);
        // the step's simulated work happens here
        SetWorkflows(workflowId, Finish(i), workflow);
      }
      SetWorkflows(workflowId, End, workflow);
    }

    /** One `setWorkflows` call of a run: phase p applied to the records with this id. */
    method SetWorkflows(workflowId: string, p: Phase, workflow: Workflow)
      requires Fits(p, |workflow.steps|)
      modifies this
      ensures workflows == Update(old(workflows), workflowId, p, workflow)
      ensures workflowHistory == old(workflowHistory) + [workflows]
      ensures tasks == old(tasks) && taskHistory == old(taskHistory)
      ensures newTaskTitle == old(newTaskTitle) && newTaskDescription == old(newTaskDescription)
      ensures newTaskPriority == old(newTaskPriority)
    {
      workflows := Update(workflows, workflowId, p, workflow);
      workflowHistory := workflowHistory + [workflows];
    }

    /** `createTask`: prepend a pending task built from the form, then clear the
        title and description (the priority stays). A blank title does nothing. */
    method CreateTask(newId: string, now: Timestamp)
      requires Valid()
      modifies this
      ensures Valid()
      ensures IsBlank(old(newTaskTitle)) ==>
                && tasks == old(tasks) && taskHistory == old(taskHistory)
                && newTaskTitle == old(newTaskTitle) && newTaskDescription == old(newTaskDescription)
      ensures !IsBlank(old(newTaskTitle)) ==>
                && tasks == [NewTask(newId, old(newTaskTitle), old(newTaskDescription), old(newTaskPriority), now)]
                            + old(tasks)
                && taskHistory == old(taskHistory) + [tasks]
                && newTaskTitle == "" && newTaskDescription == ""
                && PendingCount(tasks) == PendingCount(old(tasks)) + 1
      ensures newTaskPriority == old(newTaskPriority)
      ensures workflows == old(workflows) && workflowHistory == old(workflowHistory)
    {
      if IsBlank(newTaskTitle) {
        return;
      }
      var task := NewTask(newId, newTaskTitle, newTaskDescription, newTaskPriority, now);
      PendingCountOfTail(tasks, task);
      tasks := [task] + tasks;
      taskHistory := taskHistory + [tasks];
      newTaskTitle := "";
      newTaskDescription := "";
    }

    /** `executeTask`: the task goes to in progress, and after the simulated work
        to completed with its completion time. The Execute button is shown only
        on pending tasks. */
    method ExecuteTask(taskId: string, now: Timestamp)
      requires Valid()
      requires exists j :: 0 <= j < |tasks| && tasks[j].id == taskId && tasks[j].status == TaskStatus.Pending
      modifies this
      ensures Valid()
      ensures tasks == FinishTask(StartTask(old(tasks), taskId), taskId, now)
      ensures taskHistory == old(taskHistory) + [StartTask(old(tasks), taskId), tasks]
      ensures UniqueTaskIds(old(tasks)) ==> PendingCount(tasks) == PendingCount(old(tasks)) - 1
      ensures workflows == old(workflows) && workflowHistory == old(workflowHistory)
      ensures newTaskTitle == old(newTaskTitle) && newTaskDescription == old(newTaskDescription)
      ensures newTaskPriority == old(newTaskPriority)
    {
      var k :| 0 <= k < |tasks| && tasks[k].id == taskId && tasks[k].status == TaskStatus.Pending;
      if UniqueTaskIds(tasks) {
        ExecuteTaskEffect(tasks, taskId, k, now);
      }
      tasks := StartTask(tasks, taskId);
      taskHistory := taskHistory + [tasks];
      // the task's simulated work happens here
      tasks := FinishTask(tasks, taskId, now);
      taskHistory := taskHistory + [tasks];
    }
  }

}
