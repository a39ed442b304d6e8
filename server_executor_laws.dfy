/** Properties of the server executor's write sequence: what comes first, what ends it, and
    what a failed write leaves behind. */
module ServerExecutorLaws {
  import opened Wrappers
  import Wire
  import Session
  import ServerMetadata
  import Processor
  import ProcessorLaws
  import Runtime
  import opened ServerExecutor

  /** Submitted is written first exactly when the request carries no stored task. */
  lemma SubmittedIffNewTask(info: Wire.TaskInfo, newTask: bool, meta: ServerMetadata.InvocationMeta,
                            prep: Option<string>, run: seq<Planned>)
    ensures var plan := ExecutePlan(info, newTask, meta, prep, run);
            && plan[0].event.StatusUpdateEvent?
            && (plan[0].event.statusUpdate.status.state == Wire.Submitted <==> newTask)
  {
    var setup := SetupPlan(info, newTask, meta, prep);
    assert ExecutePlan(info, newTask, meta, prep, run)[0] == setup[0];
  }

  /** A session that cannot be prepared ends the task with one Failed status carrying the
      error and the invocation's metadata: there is no Working status and no run. */
  lemma PrepareFailureEndsTask(info: Wire.TaskInfo, newTask: bool, meta: ServerMetadata.InvocationMeta,
                               cause: string, run: seq<Planned>)
    ensures var plan := ExecutePlan(info, newTask, meta, Some(cause), run);
            && |plan| == (if newTask then 2 else 1)
            && plan[|plan| - 1] == Planned(Wire.StatusUpdateEvent(Processor.TaskFailedUpdate(info, cause, meta.eventMeta)), PlainWrite)
            && forall j | 0 <= j < |plan| :: plan[j].event.StatusUpdateEvent? && plan[j].event.statusUpdate.status.state != Wire.Working
  {
  }

  /** With the session prepared, Working, with the invocation's metadata, is the last write
      before the run's own events. */
  lemma WorkingBeforeRun(info: Wire.TaskInfo, newTask: bool, meta: ServerMetadata.InvocationMeta, run: seq<Planned>)
    ensures var plan := ExecutePlan(info, newTask, meta, None, run);
            var n := if newTask then 2 else 1;
            && |plan| == n + |run|
            && plan[n - 1] == Planned(Wire.StatusUpdateEvent(WorkingUpdate(info, meta)), PlainWrite)
            && plan[n..] == run
  {
    var setup := SetupPlan(info, newTask, meta, None);
    var plan := ExecutePlan(info, newTask, meta, None, run);
    assert plan[|setup| - 1] == setup[|setup| - 1];
  }

  /** The shape of what `process` writes: artifact updates, then exactly one status, which is
      final and ends the sequence. */
  predicate ChunksThenFinal(plan: seq<Planned>) {
    && |plan| > 0
    && plan[|plan| - 1].event.StatusUpdateEvent? && plan[|plan| - 1].event.statusUpdate.final
    && forall j | 0 <= j < |plan| - 1 :: plan[j].event.ArtifactUpdateEvent?
  }

  lemma TerminalPlanShape(info: Wire.TaskInfo, meta: ServerMetadata.InvocationMeta, s: Processor.ProcState)
    requires ProcessorLaws.StateValid(s)
    ensures ChunksThenFinal(TerminalPlan(Processor.TerminalEvents(info, meta, s)))
  {
    var evs := Processor.TerminalEvents(info, meta, s);
    var plan := TerminalPlan(evs);
    ProcessorLaws.TerminalStatus(info, meta, s);
    assert plan[|plan| - 1].event == evs[|evs| - 1];
    forall j | 0 <= j < |plan| - 1
      ensures plan[j].event.ArtifactUpdateEvent?
    {
      assert plan[j].event == evs[0];
    }
  }

  /** Prefixing artifact updates keeps the shape. */
  lemma ChunksThenFinalPrefix(ws: seq<Planned>, rest: seq<Planned>)
    requires forall j | 0 <= j < |ws| :: ws[j].event.ArtifactUpdateEvent?
    requires ChunksThenFinal(rest)
    ensures ChunksThenFinal(ws + rest)
  {
    var plan := ws + rest;
    forall j | 0 <= j < |plan| - 1
      ensures plan[j].event.ArtifactUpdateEvent?
    {
      if j < |ws| {
        assert plan[j] == ws[j];
      } else {
        assert plan[j] == rest[j - |ws|];
      }
    }
    assert plan[|plan| - 1] == rest[|rest| - 1];
  }

  /** From any reachable processor state, whatever the run yields, `process` writes
      artifact chunks in arrival order and then one final status: the terminal events at the
      end of the run, or the Failed status of the first run or processing error. Every
      chunk but the first of a new artifact is marked as appended. */
  lemma {:induction false} RunPlanShape(info: Wire.TaskInfo, meta: ServerMetadata.InvocationMeta, s: Processor.ProcState,
                                        items: seq<Runtime.RunItem>, artifactID: string)
    requires ProcessorLaws.StateValid(s)
    ensures ChunksThenFinal(RunPlan(ProcessorHooks(info, meta, artifactID), s, items))
    ensures artifactID != "" ==> AppendFlags(RunPlan(ProcessorHooks(info, meta, artifactID), s, items), s.responseID != "")
    decreases |items|
  {
    var h := ProcessorHooks(info, meta, artifactID);
    if artifactID != "" {
      RunPlanAppend(info, meta, s, items, artifactID);
    }
    if items == [] {
      TerminalPlanShape(info, meta, s);
    } else {
      var p := PlanItem(h, s, items[0]);
      if p.next.None? {
        assert RunPlan(h, s, items) == p.writes;
        assert p.writes[0].event.statusUpdate.final;
      } else {
        ProcessorLaws.StepPreservesValid(info, meta, s, items[0].event, artifactID);
        RunPlanShape(info, meta, p.next.value, items[1..], artifactID);
        ChunksThenFinalPrefix(p.writes, RunPlan(h, p.next.value, items[1..]));
      }
    }
  }

  /** The `Append` flags of the artifact updates of a plan: every one appends to the
      response artifact, except a first write when the artifact was not started yet. */
  predicate AppendFlags(plan: seq<Planned>, started: bool) {
    forall j | 0 <= j < |plan| && plan[j].event.ArtifactUpdateEvent? ::
      plan[j].event.artifactUpdate.append <==> (started || j > 0)
  }

  /** The terminal events append their last chunk to the started artifact. */
  lemma TerminalPlanAppend(info: Wire.TaskInfo, meta: ServerMetadata.InvocationMeta, s: Processor.ProcState)
    ensures AppendFlags(TerminalPlan(Processor.TerminalEvents(info, meta, s)), s.responseID != "")
  {
    var evs := Processor.TerminalEvents(info, meta, s);
    var plan := TerminalPlan(evs);
    forall j | 0 <= j < |plan| && plan[j].event.ArtifactUpdateEvent?
      ensures plan[j].event.artifactUpdate.append <==> (s.responseID != "" || j > 0)
    {
      assert plan[j].event == evs[j];
      assert j == 0 && s.responseID != "";
    }
  }

  /** A chunk written first, before a plan in which the artifact is started. */
  lemma AppendFlagsPrefix(ws: seq<Planned>, rest: seq<Planned>, started: bool)
    requires |ws| <= 1 && AppendFlags(ws, started) && AppendFlags(rest, started || |ws| == 1)
    ensures AppendFlags(ws + rest, started)
  {
    var plan := ws + rest;
    forall j | 0 <= j < |plan| && plan[j].event.ArtifactUpdateEvent?
      ensures plan[j].event.artifactUpdate.append <==> (started || j > 0)
    {
      if j < |ws| {
        assert plan[j] == ws[j];
      } else {
        assert plan[j] == rest[j - |ws|];
      }
    }
  }

  /** Whatever the run yields, the first chunk of the response artifact is not marked as
      appended and every later one, the last chunk included, is; an artifact already
      started is appended to from the first write on. The library's fresh artifact IDs
      are never empty. */
  lemma {:induction false} RunPlanAppend(info: Wire.TaskInfo, meta: ServerMetadata.InvocationMeta, s: Processor.ProcState,
                                         items: seq<Runtime.RunItem>, artifactID: string)
    requires artifactID != ""
    ensures AppendFlags(RunPlan(ProcessorHooks(info, meta, artifactID), s, items), s.responseID != "")
    decreases |items|
  {
    var h := ProcessorHooks(info, meta, artifactID);
    if items == [] {
      TerminalPlanAppend(info, meta, s);
    } else {
      var p := PlanItem(h, s, items[0]);
      if p.next.None? {
        assert RunPlan(h, s, items) == p.writes;
      } else {
        var e := items[0].event;
        ProcessorLaws.ResponseIDStable(info, meta, s, e, artifactID);
        if |p.writes| == 1 {
          ProcessorLaws.ArtifactChunk(info, meta, s, e.value, artifactID);
        }
        RunPlanAppend(info, meta, p.next.value, items[1..], artifactID);
        AppendFlagsPrefix(p.writes, RunPlan(h, p.next.value, items[1..]), s.responseID != "");
      }
    }
  }

  /** A run error ends the task at once with one Failed status: the items after it and
      the terminal events are not written. */
  lemma RunErrorEndsRun(info: Wire.TaskInfo, meta: ServerMetadata.InvocationMeta, s: Processor.ProcState,
                        m: string, rest: seq<Runtime.RunItem>, artifactID: string)
    ensures RunPlan(ProcessorHooks(info, meta, artifactID), s, [Runtime.RunError(m)] + rest) ==
            [Planned(Wire.StatusUpdateEvent(Processor.TaskFailedEvent(info, meta, "agent run failed: " + m, None)), RunErrorWrite(m))]
  {
    assert ([Runtime.RunError(m)] + rest)[0] == Runtime.RunError(m);
  }

  /** An event the processor fails on ends the task at once with one Failed status about
      that event. */
  lemma ProcessorErrorEndsRun(info: Wire.TaskInfo, meta: ServerMetadata.InvocationMeta, s: Processor.ProcState,
                              e: Option<Session.Event>, rest: seq<Runtime.RunItem>, artifactID: string)
    requires Processor.Step(info, meta, s, e, artifactID).0.Err?
    ensures var err := Processor.Step(info, meta, s, e, artifactID).0.error;
            RunPlan(ProcessorHooks(info, meta, artifactID), s, [Runtime.RunEvent(e)] + rest) ==
            [Planned(Wire.StatusUpdateEvent(Processor.TaskFailedEvent(info, meta, "processor failed: " + err, e)), ProcessorErrorWrite(err))]
  {
    assert ([Runtime.RunEvent(e)] + rest)[0] == Runtime.RunEvent(e);
  }

  /** An event that converts to a chunk is written before anything the later items cause. */
  lemma ChunkWrittenInOrder(info: Wire.TaskInfo, meta: ServerMetadata.InvocationMeta, s: Processor.ProcState,
                            e: Option<Session.Event>, rest: seq<Runtime.RunItem>, artifactID: string)
    requires Processor.Step(info, meta, s, e, artifactID).0.Ok?
    ensures var (r, s') := Processor.Step(info, meta, s, e, artifactID);
            var h := ProcessorHooks(info, meta, artifactID);
            RunPlan(h, s, [Runtime.RunEvent(e)] + rest) ==
            (if r.value.Some? then [Planned(Wire.ArtifactUpdateEvent(r.value.value), ChunkWrite)] else []) + RunPlan(h, s', rest)
  {
    var items := [Runtime.RunEvent(e)] + rest;
    assert items[0] == Runtime.RunEvent(e) && items[1..] == rest;
  }

  /** What a write sequence leaves behind: the events of a prefix of the plan. It returns
      `Pass` exactly when the whole plan was delivered; otherwise the write after the
      delivered prefix failed, it was the last attempt, and the error says which write it
      was. */
  lemma WroteOutcomeMeaning(plan: seq<Planned>, a: nat, failing: set<nat>, e0: seq<Wire.Event>,
                            events: seq<Wire.Event>, attempts: nat, r: Outcome)
    requires WroteOutcome(plan, a, failing, e0, events, attempts, r)
    ensures |e0| <= |events| <= |e0| + |plan| && events[..|e0|] == e0
    ensures var k := |events| - |e0|;
            && events[|e0|..] == EventsOf(plan[..k])
            && (forall t | a <= t < a + k :: t !in failing)
            && (r.Pass? <==> k == |plan|)
            && (r.Pass? ==> attempts == a + |plan|)
            && (r.Fail? ==> a + k in failing && attempts == a + k + 1
                            && r.error == WriteFailure(plan[k].kind, Runtime.WriteError))
  {
    var k := Runtime.Delivered(a, failing, |plan|);
    assert |EventsOf(plan[..k])| == k;
    assert events[|e0|..] == EventsOf(plan[..k]);
  }
}
