/** The older A2A executor (adka2a/executor.go). It follows the same write sequence as the
    server executor, but takes the task from the request when there is one, reads the
    application name from its runner configuration, passes its own run configuration to
    the run, and refuses to cancel without a task. Its own event processor
    (adka2a/processor.go) is not part of this model: the server package's processor stands
    in for it. */
module LegacyExecutor {
  import opened Wrappers
  import Wire
  import Parts
  import ServerMetadata
  import LegacyMetadata
  import Processor
  import Runtime
  import ServerExecutor

  /** An option of `NewExecutor` (`ExecutorOption`); `WithRunConfig` is the only one. */
  datatype ExecutorOption = WithRunConfig(config: Runtime.RunConfig)

  /** The run configuration after applying `opts`, in order, to `c`. */
  function ApplyOptions(c: Runtime.RunConfig, opts: seq<ExecutorOption>): Runtime.RunConfig
    decreases |opts|
  {
    if opts == [] then c else ApplyOptions(opts[0].config, opts[1..])
  }

  /** Applying options in order: the last `WithRunConfig` wins, and without one the
      configuration stays as it was. */
  lemma {:induction false} LastOptionWins(c: Runtime.RunConfig, opts: seq<ExecutorOption>)
    ensures ApplyOptions(c, opts) == if opts == [] then c else opts[|opts| - 1].config
    decreases |opts|
  {
    if opts != [] {
      LastOptionWins(opts[0].config, opts[1..]);
      if |opts| > 1 {
        assert opts[1..][|opts[1..]| - 1] == opts[|opts| - 1];
      }
    }
  }

  /** Applying `a` then `b` is applying `a + b`. */
  lemma {:induction false} ApplyOptionsAppend(c: Runtime.RunConfig, a: seq<ExecutorOption>, b: seq<ExecutorOption>)
    ensures ApplyOptions(c, a + b) == ApplyOptions(ApplyOptions(c, a), b)
    decreases |a|
  {
    if a != [] {
      assert (a + b)[0] == a[0] && (a + b)[1..] == a[1..] + b;
      ApplyOptionsAppend(a[0].config, a[1..], b);
    } else {
      assert a + b == b;
    }
  }

  /** The task info of the task events: the stored task's, else one built from the
      request's task and context IDs. */
  function TaskInfoOf(reqCtx: Wire.RequestContext): (info: Wire.TaskInfo)
    ensures reqCtx.storedTask.None? ==> info == Wire.RequestTaskInfo(reqCtx)
    ensures reqCtx.storedTask.Some? ==> info.taskID == reqCtx.storedTask.value.id && info.contextID == reqCtx.storedTask.value.contextID
  {
    match reqCtx.storedTask
    case Some(task) => Wire.TaskInfo(task.id, task.contextID)
    case None => Wire.RequestTaskInfo(reqCtx)
  }

  /** The invocation metadata in the shape the event processor takes. */
  function ProcessorMeta(m: LegacyMetadata.InvocationMeta): (r: ServerMetadata.InvocationMeta)
    ensures r.userID == m.userID && r.sessionID == m.sessionID && r.eventMeta == m.eventMeta
  {
    ServerMetadata.InvocationMeta(m.userID, m.sessionID, m.eventMeta)
  }

  /** Both packages derive the same invocation metadata from a request. */
  lemma InvocationMetaAgrees(appName: string, reqCtx: Wire.RequestContext)
    ensures ProcessorMeta(LegacyMetadata.ToInvocationMeta(appName, reqCtx)) == ServerMetadata.ToInvocationMeta(appName, reqCtx)
  {
    var l := ProcessorMeta(LegacyMetadata.ToInvocationMeta(appName, reqCtx));
    var s := ServerMetadata.ToInvocationMeta(appName, reqCtx);
    assert LegacyMetadata.AppNameKey == ServerMetadata.AppNameKey;
    assert LegacyMetadata.UserIDKey == ServerMetadata.UserIDKey;
    assert LegacyMetadata.SessionIDKey == ServerMetadata.SessionIDKey;
    assert l.eventMeta == s.eventMeta;
  }

  /** `Executor`: the runner configuration's application name and the run configuration. */
  class Executor {
    const appName: string
    var runConfig: Runtime.RunConfig

    /** `NewExecutor`: the default run configuration, then each option in order. */
    constructor (appName: string, opts: seq<ExecutorOption>)
      ensures this.appName == appName
      ensures runConfig == ApplyOptions(Runtime.DefaultRunConfig, opts)
    {
      this.appName := appName;
      runConfig := Runtime.DefaultRunConfig;
      new;
      for i := 0 to |opts|
        invariant runConfig == ApplyOptions(Runtime.DefaultRunConfig, opts[..i])
      {
        ApplyOptionsAppend(Runtime.DefaultRunConfig, opts[..i], [opts[i]]);
        assert opts[..i + 1] == opts[..i] + [opts[i]];
        runConfig := opts[i].config;
      }
      assert opts[..|opts|] == opts;
    }

    /** `Execute`. `runnerErr` is the error `runner.New` returns, if any; `run` is what the
        agent run yields; `artifactID` is the identifier the response artifact gets. */
    method Execute(reqCtx: Wire.RequestContext, queue: Runtime.Queue, store: Runtime.SessionStore,
                   runnerErr: Option<string>, run: Runtime.Runner, artifactID: string) returns (r: Outcome)
      modifies queue, store
      ensures ServerExecutor.EarlyFailure(reqCtx, runnerErr).Some? ==>
                && r == Fail(ServerExecutor.EarlyFailure(reqCtx, runnerErr).value)
                && queue.events == old(queue.events) && queue.attempts == old(queue.attempts)
                && store.sessions == old(store.sessions)
      ensures ServerExecutor.EarlyFailure(reqCtx, runnerErr).None? ==>
                var info := TaskInfoOf(reqCtx);
                var meta := ProcessorMeta(LegacyMetadata.ToInvocationMeta(appName, reqCtx));
                var content := Parts.GenAIContent(reqCtx.message.value).value;
                var prep := ServerExecutor.PrepareOutcome(old(store.sessions), store.getFails, store.createFails,
                                                          ServerExecutor.SessionKeyOf(appName, meta));
                var items := run(meta.userID, meta.sessionID, content, runConfig);
                var plan := ServerExecutor.ExecutePlan(info, reqCtx.storedTask.None?, meta, prep.0,
                              ServerExecutor.RunPlan(ServerExecutor.ProcessorHooks(info, meta, artifactID), Processor.InitialState, items));
                && ServerExecutor.WroteOutcome(plan, old(queue.attempts), queue.failing, old(queue.events), queue.events, queue.attempts, r)
                && store.sessions == if reqCtx.storedTask.None? && old(queue.attempts) in queue.failing
                                     then old(store.sessions) else prep.1
    {
      if reqCtx.message.None? {
        return Fail("message not provided");
      }
      var content := Parts.ToGenAIContent(reqCtx.message.value);
      if content.Err? {
        return Fail("a2a message conversion failed: " + content.error);
      }
      if runnerErr.Some? {
        return Fail("failed to create a runner: " + runnerErr.value);
      }
      var info := TaskInfoOf(reqCtx);
      var meta := ProcessorMeta(LegacyMetadata.ToInvocationMeta(appName, reqCtx));
      var items := run(meta.userID, meta.sessionID, content.value, runConfig);
      r := ServerExecutor.Launch(appName, info, reqCtx.storedTask.None?, meta, items, artifactID, queue, store);
    }

    /** `Cancel`: an error without a task; otherwise one Canceled status for it. */
    method Cancel(reqCtx: Wire.RequestContext, queue: Runtime.Queue) returns (r: Outcome)
      modifies queue
      ensures reqCtx.storedTask.None? ==>
                r == Fail("no task provided") && queue.events == old(queue.events) && queue.attempts == old(queue.attempts)
      ensures reqCtx.storedTask.Some? ==>
                ServerExecutor.WroteOutcome(
                  [ServerExecutor.Planned(Wire.StatusUpdateEvent(Wire.NewStatusUpdate(TaskInfoOf(reqCtx), Wire.Canceled, None)), ServerExecutor.PlainWrite)],
                  old(queue.attempts), queue.failing, old(queue.events), queue.events, queue.attempts, r)
    {
      if reqCtx.storedTask.None? {
        return Fail("no task provided");
      }
      var event := Wire.NewStatusUpdate(TaskInfoOf(reqCtx), Wire.Canceled, None);
      r := ServerExecutor.WritePlanned(queue, ServerExecutor.Planned(Wire.StatusUpdateEvent(event), ServerExecutor.PlainWrite));
    }
  }
}
