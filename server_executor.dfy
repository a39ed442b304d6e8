/** The A2A executor of the server package (server/adka2a/executor.go): it converts the
    request's message, makes sure the session exists, runs the agent and writes the task's
    status and artifact updates to the event queue. A processing failure becomes a Failed
    status on the queue; only a failed queue write is returned as an error once writing
    has begun. */
module ServerExecutor {
  import opened Wrappers
  import GenAI
  import Wire
  import Session
  import ServerMetadata
  import Parts
  import Processor
  import Runtime

  /** `ExecutorConfig`: the runner configuration's application name, and the run
      configuration passed to every run. The session service is the store handed to
      `Execute`; whether `runner.New` fails is a parameter of `Execute`. */
  datatype ExecutorConfig = ExecutorConfig(appName: string, runConfig: Runtime.RunConfig)

  /** How a failed write of a planned event is reported. */
  datatype WriteKind =
    | SetupWrite
    | PlainWrite
    | RunErrorWrite(cause: string)
    | ProcessorErrorWrite(cause: string)
    | ChunkWrite
    | TerminalWrite

  /** The error returned when a write of the given kind fails with `err`. */
  function WriteFailure(kind: WriteKind, err: string): (msg: string)
    ensures kind.PlainWrite? ==> msg == err
    ensures |msg| >= |err|
  {
    match kind
    case SetupWrite => "failed to setup a task: " + err
    case PlainWrite => err
    case RunErrorWrite(cause) => "error event write failed: " + cause + ", " + err
    case ProcessorErrorWrite(cause) => "processor error event write failed: " + cause + ", " + err
    case ChunkWrite => "send event failed: " + err
    case TerminalWrite => "terminal event send failed: " + err
  }

  /** An event the executor writes, and how a failure to write it is reported. */
  datatype Planned = Planned(event: Wire.Event, kind: WriteKind)

  function EventsOf(ws: seq<Planned>): (evs: seq<Wire.Event>)
    ensures |evs| == |ws|
  {
    seq(|ws|, i requires 0 <= i < |ws| => ws[i].event)
  }

  lemma EventsOfAppend(a: seq<Planned>, b: seq<Planned>)
    ensures EventsOf(a + b) == EventsOf(a) + EventsOf(b)
  {
  }

  function TerminalPlan(evs: seq<Wire.Event>): (ws: seq<Planned>)
    ensures |ws| == |evs|
  {
    seq(|evs|, i requires 0 <= i < |evs| => Planned(evs[i], TerminalWrite))
  }

  /** The event processor as `process` sees it: one step per run event, the Failed status
      reporting an error (with the event it is about, if any), and the terminal events. */
  datatype Hooks = Hooks(
    step: (Processor.ProcState, Option<Session.Event>) -> (Result<Option<Wire.ArtifactUpdate>>, Processor.ProcState),
    failed: (string, Option<Session.Event>) -> Wire.StatusUpdate,
    terminal: Processor.ProcState -> seq<Wire.Event>)

  /** The hooks of an `EventProcessor` for task `info`, invocation `meta`, whose response
      artifact gets the identifier `artifactID`. */
  function ProcessorHooks(info: Wire.TaskInfo, meta: ServerMetadata.InvocationMeta, artifactID: string): Hooks {
    Hooks((s, e) => Processor.Step(info, meta, s, e, artifactID),
          (cause, e) => Processor.TaskFailedEvent(info, meta, cause, e),
          s => Processor.TerminalEvents(info, meta, s))
  }

  /** What `process` does with one run item: the events it writes, and the processor
      state it continues from, or `None` when it stops after writing them. */
  datatype ItemPlan = ItemPlan(writes: seq<Planned>, next: Option<Processor.ProcState>)

  function PlanItem(h: Hooks, s: Processor.ProcState, item: Runtime.RunItem): (p: ItemPlan)
    ensures |p.writes| <= 1
    ensures p.next.None? ==>
              && |p.writes| == 1 && p.writes[0].event.StatusUpdateEvent?
              && (item.RunError? ==> p.writes[0].kind == RunErrorWrite(item.message))
              && (item.RunEvent? ==> h.step(s, item.event).0.Err? && p.writes[0].kind == ProcessorErrorWrite(h.step(s, item.event).0.error))
    ensures p.next.Some? ==> item.RunEvent? && h.step(s, item.event).0.Ok? && p.next.value == h.step(s, item.event).1
    ensures p.next.Some? ==> (|p.writes| == 1 <==> h.step(s, item.event).0.value.Some?)
    ensures p.next.Some? && |p.writes| == 1 ==>
              p.writes[0] == Planned(Wire.ArtifactUpdateEvent(h.step(s, item.event).0.value.value), ChunkWrite)
  {
    match item
    case RunError(m) =>
      ItemPlan([Planned(Wire.StatusUpdateEvent(h.failed("agent run failed: " + m, None)), RunErrorWrite(m))], None)
    case RunEvent(e) =>
      var (r, s') := h.step(s, e);
      match r
      case Err(err) =>
        ItemPlan([Planned(Wire.StatusUpdateEvent(h.failed("processor failed: " + err, e)), ProcessorErrorWrite(err))], None)
      case Ok(chunk) =>
        ItemPlan(if chunk.Some? then [Planned(Wire.ArtifactUpdateEvent(chunk.value), ChunkWrite)] else [], Some(s'))
  }

  /** The events `process` writes for the remaining run items, from processor state `s`,
      if every write succeeds: a chunk per converted event, then the terminal events, or a
      single Failed status at the first run or processing error. */
  function RunPlan(h: Hooks, s: Processor.ProcState, items: seq<Runtime.RunItem>): seq<Planned>
    decreases |items|
  {
    if items == [] then TerminalPlan(h.terminal(s))
    else
      var p := PlanItem(h, s, items[0]);
      p.writes + if p.next.Some? then RunPlan(h, p.next.value, items[1..]) else []
  }

  /** One step of `RunPlan` on the items from `i` on. */
  lemma RunPlanUnfold(h: Hooks, s: Processor.ProcState, items: seq<Runtime.RunItem>, i: nat)
    requires i < |items|
    ensures var p := PlanItem(h, s, items[i]);
            RunPlan(h, s, items[i..]) == p.writes + if p.next.Some? then RunPlan(h, p.next.value, items[i + 1..]) else []
  {
    assert items[i..][0] == items[i] && items[i..][1..] == items[i + 1..];
  }

  /** Writing `plan` from attempt `a` on: the delivered prefix, and the outcome. */
  predicate WroteOutcome(plan: seq<Planned>, a: nat, failing: set<nat>, e0: seq<Wire.Event>,
                         events: seq<Wire.Event>, attempts: nat, r: Outcome)
  {
    var k := Runtime.Delivered(a, failing, |plan|);
    && events == e0 + EventsOf(plan[..k])
    && attempts == a + (if k < |plan| then k + 1 else k)
    && r == (if k < |plan| then Fail(WriteFailure(plan[k].kind, Runtime.WriteError)) else Pass)
  }

  /** The body of `process`'s loop for one item. */
  method ProcessItem(processor: Processor.EventProcessor, ghost h: Hooks, item: Runtime.RunItem, artifactID: string,
                     queue: Runtime.Queue) returns (stop: bool, r: Outcome)
    requires h == ProcessorHooks(processor.info, processor.meta, artifactID)
    modifies processor, queue
    ensures var p := PlanItem(h, old(processor.State()), item);
            && WroteOutcome(p.writes, old(queue.attempts), queue.failing, old(queue.events), queue.events, queue.attempts, r)
            && (stop <==> r.Fail? || p.next.None?)
            && (!stop ==> processor.State() == p.next.value)
  {
    ghost var p := PlanItem(h, processor.State(), item);
    match item
    case RunError(m) => {
      var ev := Processor.TaskFailedEvent(processor.info, processor.meta, "agent run failed: " + m, None);
      var w := queue.Write(Wire.StatusUpdateEvent(ev));
      if w.Fail? {
        return true, Fail(WriteFailure(RunErrorWrite(m), w.error));
      }
      assert p.writes[..1] == p.writes;
      return true, Pass;
    }
    case RunEvent(e) => {
      var res := processor.Process(e, artifactID);
      if res.Err? {
        var ev := Processor.TaskFailedEvent(processor.info, processor.meta, "processor failed: " + res.error, e);
        var w := queue.Write(Wire.StatusUpdateEvent(ev));
        if w.Fail? {
          return true, Fail(WriteFailure(ProcessorErrorWrite(res.error), w.error));
        }
        assert p.writes[..1] == p.writes;
        return true, Pass;
      }
      if res.value.Some? {
        var w := queue.Write(Wire.ArtifactUpdateEvent(res.value.value));
        if w.Fail? {
          return true, Fail(WriteFailure(ChunkWrite, w.error));
        }
        assert p.writes[..1] == p.writes;
      }
      return false, Pass;
    }
  }

  /** Writing a plan that starts with the fully delivered `done`: the outcome of writing
      `ws` next is the outcome of the whole plan, when writing stops after `ws`. */
  lemma WroteStop(plan: seq<Planned>, done: seq<Planned>, ws: seq<Planned>, rest: seq<Planned>,
                  a0: nat, a1: nat, failing: set<nat>, e0: seq<Wire.Event>, e1: seq<Wire.Event>,
                  events: seq<Wire.Event>, attempts: nat, r: Outcome)
    requires plan == done + ws + rest
    requires a1 == a0 + |done| && e1 == e0 + EventsOf(done)
    requires forall t | a0 <= t < a0 + |done| :: t !in failing
    requires WroteOutcome(ws, a1, failing, e1, events, attempts, r)
    requires r.Pass? ==> rest == []
    ensures WroteOutcome(plan, a0, failing, e0, events, attempts, r)
  {
    var k := Runtime.Delivered(a0 + |done|, failing, |ws|);
    EventsOfAppend(done, ws[..k]);
    if k < |ws| {
      Runtime.DeliveredUnique(a0, failing, |plan|, |done| + k);
      assert plan[..|done| + k] == done + ws[..k];
      assert plan[|done| + k] == ws[k];
    } else {
      Runtime.DeliveredUnique(a0, failing, |plan|, |plan|);
      assert plan[..|plan|] == done + ws[..k];
    }
  }

  /** A fully delivered batch extends the delivered prefix. */
  lemma WroteContinue(ws: seq<Planned>, a: nat, failing: set<nat>, e0: seq<Wire.Event>,
                      events: seq<Wire.Event>, attempts: nat, r: Outcome)
    requires WroteOutcome(ws, a, failing, e0, events, attempts, r) && r.Pass?
    ensures events == e0 + EventsOf(ws) && attempts == a + |ws|
    ensures forall t | a <= t < a + |ws| :: t !in failing
  {
    assert ws[..|ws|] == ws;
  }

  /** The loop over the terminal events at the end of `process`. */
  method WriteTerminal(terminal: seq<Wire.Event>, queue: Runtime.Queue) returns (r: Outcome)
    modifies queue
    ensures WroteOutcome(TerminalPlan(terminal), old(queue.attempts), queue.failing, old(queue.events),
                         queue.events, queue.attempts, r)
  {
    ghost var plan := TerminalPlan(terminal);
    ghost var a0 := queue.attempts;
    for j := 0 to |terminal|
      invariant queue.events == old(queue.events) + terminal[..j]
      invariant queue.attempts == a0 + j
      invariant forall t | a0 <= t < a0 + j :: t !in queue.failing
    {
      var w := queue.Write(terminal[j]);
      if w.Fail? {
        Runtime.DeliveredUnique(a0, queue.failing, |plan|, j);
        assert EventsOf(plan[..j]) == terminal[..j];
        return Fail(WriteFailure(TerminalWrite, w.error));
      }
      assert terminal[..j + 1] == terminal[..j] + [terminal[j]];
    }
    Runtime.DeliveredUnique(a0, queue.failing, |plan|, |plan|);
    assert plan[..|plan|] == plan && terminal[..|terminal|] == terminal;
    return Pass;
  }

  /** Delivered so far: the writes `done`, from attempt `a0` on, all succeeded. */
  predicate DeliveredAll(done: seq<Planned>, a0: nat, e0: seq<Wire.Event>, queue: Runtime.Queue)
    reads queue
  {
    && queue.events == e0 + EventsOf(done)
    && queue.attempts == a0 + |done|
    && forall t | a0 <= t < a0 + |done| :: t !in queue.failing
  }

  /** The bookkeeping of one turn of `process`'s loop: writing the events of item `i`
      after the delivered `done` either ends the whole plan's writing or extends `done` to
      `done'`. */
  lemma TurnLaw(h: Hooks, s0: Processor.ProcState, s1: Processor.ProcState, items: seq<Runtime.RunItem>, i: nat,
                plan: seq<Planned>, done: seq<Planned>, a0: nat, a1: nat, failing: set<nat>,
                e0: seq<Wire.Event>, e1: seq<Wire.Event>, events: seq<Wire.Event>, attempts: nat,
                r: Outcome, stop: bool) returns (done': seq<Planned>)
    requires i < |items| && plan == done + RunPlan(h, s0, items[i..])
    requires a1 == a0 + |done| && e1 == e0 + EventsOf(done) && forall t | a0 <= t < a1 :: t !in failing
    requires var p := PlanItem(h, s0, items[i]);
             && WroteOutcome(p.writes, a1, failing, e1, events, attempts, r)
             && (stop <==> r.Fail? || p.next.None?)
             && (!stop ==> s1 == p.next.value)
    ensures stop ==> WroteOutcome(plan, a0, failing, e0, events, attempts, r)
    ensures !stop ==>
              && plan == done' + RunPlan(h, s1, items[i + 1..])
              && events == e0 + EventsOf(done') && attempts == a0 + |done'|
              && forall t | a0 <= t < a0 + |done'| :: t !in failing
  {
    var p := PlanItem(h, s0, items[i]);
    var next := if p.next.Some? then RunPlan(h, p.next.value, items[i + 1..]) else [];
    RunPlanUnfold(h, s0, items, i);
    done' := WriteBatch(plan, done, p, next, a0, a1, failing, e0, e1, events, attempts, r, stop);
  }

  /** Writing an item's events `p.writes` after the delivered `done`, in a plan that goes
      on with `next` if the item lets `process` continue. */
  lemma WriteBatch(plan: seq<Planned>, done: seq<Planned>, p: ItemPlan, next: seq<Planned>,
                   a0: nat, a1: nat, failing: set<nat>, e0: seq<Wire.Event>, e1: seq<Wire.Event>,
                   events: seq<Wire.Event>, attempts: nat, r: Outcome, stop: bool) returns (done': seq<Planned>)
    requires plan == done + (p.writes + (if p.next.Some? then next else []))
    requires a1 == a0 + |done| && e1 == e0 + EventsOf(done) && forall t | a0 <= t < a1 :: t !in failing
    requires WroteOutcome(p.writes, a1, failing, e1, events, attempts, r)
    requires stop <==> r.Fail? || p.next.None?
    ensures stop ==> WroteOutcome(plan, a0, failing, e0, events, attempts, r)
    ensures !stop ==>
              && plan == done' + next
              && events == e0 + EventsOf(done') && attempts == a0 + |done'|
              && forall t | a0 <= t < a0 + |done'| :: t !in failing
  {
    AppendAssoc(done, p.writes, if p.next.Some? then next else []);
    if stop {
      WroteStop(plan, done, p.writes, if p.next.Some? then next else [], a0, a1, failing, e0, e1, events, attempts, r);
      done' := done;
    } else {
      WroteContinue(p.writes, a1, failing, e1, events, attempts, r);
      EventsOfAppend(done, p.writes);
      done' := done + p.writes;
    }
  }

  lemma AppendAssoc<T>(a: seq<T>, b: seq<T>, c: seq<T>)
    ensures a + (b + c) == a + b + c
  {
  }

  /** One turn of `process`'s loop, for item `i`, with everything written before it
      delivered. */
  method Turn(processor: Processor.EventProcessor, ghost h: Hooks, items: seq<Runtime.RunItem>, i: nat, artifactID: string,
              queue: Runtime.Queue, ghost plan: seq<Planned>, ghost a0: nat, ghost e0: seq<Wire.Event>,
              ghost done: seq<Planned>) returns (stop: bool, r: Outcome, ghost done': seq<Planned>)
    requires h == ProcessorHooks(processor.info, processor.meta, artifactID)
    requires i < |items|
    requires plan == done + RunPlan(h, processor.State(), items[i..])
    requires DeliveredAll(done, a0, e0, queue)
    modifies processor, queue
    ensures stop ==> WroteOutcome(plan, a0, queue.failing, e0, queue.events, queue.attempts, r)
    ensures !stop ==> plan == done' + RunPlan(h, processor.State(), items[i + 1..]) && DeliveredAll(done', a0, e0, queue)
  {
    ghost var s0, a1, e1 := processor.State(), queue.attempts, queue.events;
    stop, r := ProcessItem(processor, h, items[i], artifactID, queue);
    done' := TurnLaw(h, s0, processor.State(), items, i, plan, done, a0, a1, queue.failing, e0, e1,
                     queue.events, queue.attempts, r, stop);
  }

  /** `process`'s loop over the run items. It stops at the first failed write or at the
      first item after which `process` returns; otherwise every planned write so far,
      `done`, is delivered and the terminal events remain. */
  method RunItems(processor: Processor.EventProcessor, ghost h: Hooks, items: seq<Runtime.RunItem>, artifactID: string,
                  queue: Runtime.Queue) returns (stopped: bool, r: Outcome, ghost done: seq<Planned>)
    requires h == ProcessorHooks(processor.info, processor.meta, artifactID)
    modifies processor, queue
    ensures var plan := RunPlan(h, old(processor.State()), items);
            && (stopped ==> WroteOutcome(plan, old(queue.attempts), queue.failing, old(queue.events), queue.events, queue.attempts, r))
            && (!stopped ==> plan == done + TerminalPlan(h.terminal(processor.State()))
                             && DeliveredAll(done, old(queue.attempts), old(queue.events), queue))
  {
    ghost var plan := RunPlan(h, processor.State(), items);
    ghost var a0 := old(queue.attempts);
    ghost var e0 := old(queue.events);
    done := [];
    var i := 0;
    assert items[i..] == items;
    while i < |items|
      invariant 0 <= i <= |items|
      invariant plan == done + RunPlan(h, processor.State(), items[i..])
      invariant DeliveredAll(done, a0, e0, queue)
    {
      var stop;
      stop, r, done := Turn(processor, h, items, i, artifactID, queue, plan, a0, e0, done);
      if stop {
        return true, r, done;
      }
      i := i + 1;
    }
    assert items[i..] == [];
    return false, Pass, done;
  }

  /** `process`: run the agent and write what the processor makes of each item, then the
      terminal events. */
  method Process(processor: Processor.EventProcessor, items: seq<Runtime.RunItem>, artifactID: string,
                 queue: Runtime.Queue) returns (r: Outcome)
    modifies processor, queue
    ensures WroteOutcome(RunPlan(ProcessorHooks(processor.info, processor.meta, artifactID), old(processor.State()), items),
                         old(queue.attempts), queue.failing, old(queue.events), queue.events, queue.attempts, r)
  {
    ghost var h := ProcessorHooks(processor.info, processor.meta, artifactID);
    ghost var a0 := queue.attempts;
    ghost var e0 := queue.events;
    ghost var plan := RunPlan(h, processor.State(), items);
    var stopped;
    ghost var done;
    stopped, r, done := RunItems(processor, h, items, artifactID, queue);
    if stopped {
      return r;
    }
    var terminal := processor.MakeTerminalEvents();
    assert plan == done + TerminalPlan(terminal) + [];
    ghost var a1, e1 := queue.attempts, queue.events;
    r := WriteTerminal(terminal, queue);
    WroteStop(plan, done, TerminalPlan(terminal), [], a0, a1, queue.failing, e0, e1, queue.events, queue.attempts, r);
  }

  /** Writes one planned event. */
  method WritePlanned(queue: Runtime.Queue, w: Planned) returns (r: Outcome)
    modifies queue
    ensures WroteOutcome([w], old(queue.attempts), queue.failing, old(queue.events), queue.events, queue.attempts, r)
  {
    var res := queue.Write(w.event);
    if res.Fail? {
      Runtime.DeliveredUnique(old(queue.attempts), queue.failing, 1, 0);
      return Fail(WriteFailure(w.kind, res.error));
    }
    Runtime.DeliveredUnique(old(queue.attempts), queue.failing, 1, 1);
    assert [w][..1] == [w];
    return Pass;
  }

  /** The outcome of `prepareSession` on the stored sessions: the error it returns, and the
      sessions afterwards. An existing session is reused; otherwise one is created. */
  function PrepareOutcome(sessions: set<Runtime.SessionKey>, getFails: bool, createFails: bool,
                          key: Runtime.SessionKey): (r: (Option<string>, set<Runtime.SessionKey>))
    ensures sessions <= r.1 <= sessions + {key}
    ensures r.0.None? ==> key in r.1
    ensures r.0.None? <==> (!getFails && key in sessions) || !createFails
    ensures r.0.Some? ==> r.0.value == "failed to create a session: " + Runtime.CreateError && r.1 == sessions
  {
    if !getFails && key in sessions then (None, sessions)
    else if createFails then (Some("failed to create a session: " + Runtime.CreateError), sessions)
    else (None, sessions + {key})
  }

  function SessionKeyOf(appName: string, meta: ServerMetadata.InvocationMeta): Runtime.SessionKey {
    Runtime.SessionKey(appName, meta.userID, meta.sessionID)
  }

  /** `prepareSession`. */
  method PrepareSession(appName: string, meta: ServerMetadata.InvocationMeta, store: Runtime.SessionStore)
    returns (err: Option<string>)
    modifies store
    ensures (err, store.sessions) ==
            PrepareOutcome(old(store.sessions), store.getFails, store.createFails, SessionKeyOf(appName, meta))
  {
    var key := SessionKeyOf(appName, meta);
    var found := store.Get(key);
    if found {
      return None;
    }
    var created := store.Create(key);
    if created.Fail? {
      return Some("failed to create a session: " + created.error);
    }
    return None;
  }

  /** What `Execute` returns before it writes anything, if it stops there. */
  function EarlyFailure(reqCtx: Wire.RequestContext, runnerErr: Option<string>): (r: Option<string>)
    ensures reqCtx.message.None? ==> r == Some("message not provided")
    ensures r.None? <==> reqCtx.message.Some? && Parts.GenAIContent(reqCtx.message.value).Ok? && runnerErr.None?
  {
    if reqCtx.message.None? then Some("message not provided")
    else match Parts.GenAIContent(reqCtx.message.value)
      case Err(e) => Some("a2a message conversion failed: " + e)
      case Ok(_) => if runnerErr.Some? then Some("failed to create a runner: " + runnerErr.value) else None
  }

  /** The Working status that opens a run, carrying the invocation's metadata. */
  function WorkingUpdate(info: Wire.TaskInfo, meta: ServerMetadata.InvocationMeta): (u: Wire.StatusUpdate)
    ensures u.status == Wire.TaskStatus(Wire.Working, None) && !u.final && u.metadata == Some(meta.eventMeta)
    ensures u.taskID == info.taskID && u.contextID == info.contextID
  {
    Wire.NewStatusUpdate(info, Wire.Working, None).(metadata := Some(meta.eventMeta))
  }

  /** The events `Execute` writes before the run, if every write succeeds: Submitted for a
      new task, then either the Failed status of a session that could not be prepared, or
      Working. */
  function SetupPlan(info: Wire.TaskInfo, newTask: bool, meta: ServerMetadata.InvocationMeta,
                     prep: Option<string>): (plan: seq<Planned>)
    ensures |plan| == if newTask then 2 else 1
    ensures newTask ==> plan[0] == Planned(Wire.StatusUpdateEvent(Wire.NewStatusUpdate(info, Wire.Submitted, None)), SetupWrite)
    ensures plan[|plan| - 1].event.StatusUpdateEvent?
    ensures var last := plan[|plan| - 1].event.statusUpdate;
            && plan[|plan| - 1].kind == PlainWrite && last.taskID == info.taskID && last.metadata == Some(meta.eventMeta)
            && last.status.state == (if prep.Some? then Wire.Failed else Wire.Working)
  {
    (if newTask then [Planned(Wire.StatusUpdateEvent(Wire.NewStatusUpdate(info, Wire.Submitted, None)), SetupWrite)] else [])
    + if prep.Some?
      then [Planned(Wire.StatusUpdateEvent(Processor.TaskFailedUpdate(info, prep.value, meta.eventMeta)), PlainWrite)]
      else [Planned(Wire.StatusUpdateEvent(WorkingUpdate(info, meta)), PlainWrite)]
  }

  /** The events `Execute` writes, if every write succeeds: the setup events, then, when
      the session is prepared, what `process` writes for the run (`run`). */
  function ExecutePlan(info: Wire.TaskInfo, newTask: bool, meta: ServerMetadata.InvocationMeta,
                       prep: Option<string>, run: seq<Planned>): (plan: seq<Planned>)
    ensures |plan| == |SetupPlan(info, newTask, meta, prep)| + if prep.None? then |run| else 0
    ensures plan[..|SetupPlan(info, newTask, meta, prep)|] == SetupPlan(info, newTask, meta, prep)
    ensures prep.None? ==> plan[|SetupPlan(info, newTask, meta, prep)|..] == run
  {
    SetupPlan(info, newTask, meta, prep) + if prep.None? then run else []
  }

  /** The part of `Execute` before the run: announce a new task, prepare the session, and
      write the Failed status of a session that could not be prepared, or Working. */
  method Setup(appName: string, info: Wire.TaskInfo, newTask: bool, meta: ServerMetadata.InvocationMeta,
               queue: Runtime.Queue, store: Runtime.SessionStore) returns (r: Outcome, err: Option<string>)
    modifies queue, store
    ensures var prep := PrepareOutcome(old(store.sessions), store.getFails, store.createFails, SessionKeyOf(appName, meta));
            && WroteOutcome(SetupPlan(info, newTask, meta, prep.0), old(queue.attempts), queue.failing,
                            old(queue.events), queue.events, queue.attempts, r)
            && (r.Pass? ==> err == prep.0)
            && store.sessions == if newTask && old(queue.attempts) in queue.failing then old(store.sessions) else prep.1
  {
    ghost var a0, e0 := queue.attempts, queue.events;
    ghost var prep := PrepareOutcome(store.sessions, store.getFails, store.createFails, SessionKeyOf(appName, meta));
    ghost var plan := SetupPlan(info, newTask, meta, prep.0);
    ghost var done: seq<Planned> := [];
    if newTask {
      var submitted := Planned(Wire.StatusUpdateEvent(Wire.NewStatusUpdate(info, Wire.Submitted, None)), SetupWrite);
      assert plan == [] + [submitted] + plan[1..];
      var w := WritePlanned(queue, submitted);
      if w.Fail? {
        WroteStop(plan, [], [submitted], plan[1..], a0, a0, queue.failing, e0, e0, queue.events, queue.attempts, w);
        return w, None;
      }
      WroteContinue([submitted], a0, queue.failing, e0, queue.events, queue.attempts, w);
      done := [submitted];
    }
    err := PrepareSession(appName, meta, store);
    var last := if err.Some?
      then Planned(Wire.StatusUpdateEvent(Processor.TaskFailedUpdate(info, err.value, meta.eventMeta)), PlainWrite)
      else Planned(Wire.StatusUpdateEvent(WorkingUpdate(info, meta)), PlainWrite);
    assert plan == done + [last] + [];
    ghost var a1, e1 := queue.attempts, queue.events;
    r := WritePlanned(queue, last);
    WroteStop(plan, done, [last], [], a0, a1, queue.failing, e0, e1, queue.events, queue.attempts, r);
  }

  /** `Execute`. `runnerErr` is the error `runner.New` returns, if any; `run` is what the
      agent run yields; `artifactID` is the identifier the response artifact gets. */
  method Execute(cfg: ExecutorConfig, reqCtx: Wire.RequestContext, queue: Runtime.Queue, store: Runtime.SessionStore,
                 runnerErr: Option<string>, run: Runtime.Runner, artifactID: string) returns (r: Outcome)
    modifies queue, store
    ensures EarlyFailure(reqCtx, runnerErr).Some? ==>
              && r == Fail(EarlyFailure(reqCtx, runnerErr).value)
              && queue.events == old(queue.events) && queue.attempts == old(queue.attempts)
              && store.sessions == old(store.sessions)
    ensures EarlyFailure(reqCtx, runnerErr).None? ==>
              var info := Wire.RequestTaskInfo(reqCtx);
              var meta := ServerMetadata.ToInvocationMeta(cfg.appName, reqCtx);
              var content := Parts.GenAIContent(reqCtx.message.value).value;
              var prep := PrepareOutcome(old(store.sessions), store.getFails, store.createFails, SessionKeyOf(cfg.appName, meta));
              var items := run(meta.userID, meta.sessionID, content, cfg.runConfig);
              var plan := ExecutePlan(info, reqCtx.storedTask.None?, meta, prep.0,
                                      RunPlan(ProcessorHooks(info, meta, artifactID), Processor.InitialState, items));
              && WroteOutcome(plan, old(queue.attempts), queue.failing, old(queue.events), queue.events, queue.attempts, r)
              && store.sessions == if reqCtx.storedTask.None? && old(queue.attempts) in queue.failing
                                   then old(store.sessions) else prep.1
  {
    if reqCtx.message.None? {
      return Fail("message not provided");
    }
    var content := Parts.ToGenAIContent(reqCtx.message.value);
    if content.Err? {
      return Fail("a2a message conversion failed: " + content.error);
    }
    if runnerErr.Some? {
      return Fail("failed to create a runner: " + runnerErr.value);
    }
    var info := Wire.RequestTaskInfo(reqCtx);
    var meta := ServerMetadata.ToInvocationMeta(cfg.appName, reqCtx);
    var items := run(meta.userID, meta.sessionID, content.value, cfg.runConfig);
    r := Launch(cfg.appName, info, reqCtx.storedTask.None?, meta, items, artifactID, queue, store);
  }

  /** `Execute` once the request is accepted: the setup writes, then the run. */
  method Launch(appName: string, info: Wire.TaskInfo, newTask: bool, meta: ServerMetadata.InvocationMeta,
                items: seq<Runtime.RunItem>, artifactID: string, queue: Runtime.Queue, store: Runtime.SessionStore)
    returns (r: Outcome)
    modifies queue, store
    ensures var prep := PrepareOutcome(old(store.sessions), store.getFails, store.createFails, SessionKeyOf(appName, meta));
            && WroteOutcome(ExecutePlan(info, newTask, meta, prep.0,
                                        RunPlan(ProcessorHooks(info, meta, artifactID), Processor.InitialState, items)),
                            old(queue.attempts), queue.failing, old(queue.events), queue.events, queue.attempts, r)
            && store.sessions == if newTask && old(queue.attempts) in queue.failing then old(store.sessions) else prep.1
  {
    ghost var a0, e0 := queue.attempts, queue.events;
    ghost var prep := PrepareOutcome(store.sessions, store.getFails, store.createFails, SessionKeyOf(appName, meta));
    ghost var setup := SetupPlan(info, newTask, meta, prep.0);
    ghost var rest := RunPlan(ProcessorHooks(info, meta, artifactID), Processor.InitialState, items);
    ghost var plan := ExecutePlan(info, newTask, meta, prep.0, rest);
    var err;
    r, err := Setup(appName, info, newTask, meta, queue, store);
    if r.Fail? || err.Some? {
      ghost var tail := if prep.0.None? then rest else [];
      assert plan == [] + setup + tail;
      WroteStop(plan, [], setup, tail, a0, a0, queue.failing, e0, e0, queue.events, queue.attempts, r);
      return r;
    }
    WroteContinue(setup, a0, queue.failing, e0, queue.events, queue.attempts, r);
    var processor := new Processor.EventProcessor(info, meta);
    ghost var a1, e1 := queue.attempts, queue.events;
    assert plan == setup + rest + [];
    r := Process(processor, items, artifactID, queue);
    WroteStop(plan, setup, rest, [], a0, a1, queue.failing, e0, e1, queue.events, queue.attempts, r);
  }

  /** `Cancel`: a Canceled status for the request's task. */
  method Cancel(reqCtx: Wire.RequestContext, queue: Runtime.Queue) returns (r: Outcome)
    modifies queue
    ensures WroteOutcome([Planned(Wire.StatusUpdateEvent(Wire.NewStatusUpdate(Wire.RequestTaskInfo(reqCtx), Wire.Canceled, None)), PlainWrite)],
                         old(queue.attempts), queue.failing, old(queue.events), queue.events, queue.attempts, r)
  {
    var event := Wire.NewStatusUpdate(Wire.RequestTaskInfo(reqCtx), Wire.Canceled, None);
    r := WritePlanned(queue, Planned(Wire.StatusUpdateEvent(event), PlainWrite));
  }
}
