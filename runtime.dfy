/** The collaborators the executors drive but whose code is not part of this model: the
    A2A event queue, the session service and the agent runner. Each is reduced to the
    behaviour the executors can observe: whether a call succeeds, and what it records. */
module Runtime {
  import opened Wrappers
  import GenAI
  import Wire
  import Session

  /** The text of a failed queue write. The queue's own error messages are not modelled. */
  const WriteError := "event queue write failed"

  /** The text of a failed session creation. */
  const CreateError := "session creation failed"

  /** The number of writes, of `n` attempted from attempt number `a` on, that succeed before
      the first failing attempt (attempt numbers in `failing` fail). */
  function Delivered(a: nat, failing: set<nat>, n: nat): (k: nat)
    ensures k <= n
    ensures forall t | a <= t < a + k :: t !in failing
    ensures k < n ==> a + k in failing
    decreases n
  {
    if n == 0 || a in failing then 0 else 1 + Delivered(a + 1, failing, n - 1)
  }

  /** `Delivered` is the only count with its three properties. */
  lemma {:induction false} DeliveredUnique(a: nat, failing: set<nat>, n: nat, k: nat)
    requires k <= n && (forall t | a <= t < a + k :: t !in failing) && (k < n ==> a + k in failing)
    ensures Delivered(a, failing, n) == k
    decreases n
  {
    if n == 0 {
    } else if a in failing {
      assert k == 0;
    } else {
      assert k > 0;
      DeliveredUnique(a + 1, failing, n - 1, k - 1);
    }
  }

  /** Writing `m` then `n` planned events: the second batch starts once the first is
      fully delivered. */
  lemma DeliveredAppend(a: nat, failing: set<nat>, m: nat, n: nat)
    ensures Delivered(a, failing, m + n) ==
            if Delivered(a, failing, m) < m then Delivered(a, failing, m)
            else m + Delivered(a + m, failing, n)
  {
    var k1 := Delivered(a, failing, m);
    if k1 < m {
      DeliveredUnique(a, failing, m + n, k1);
    } else {
      var k2 := Delivered(a + m, failing, n);
      DeliveredUnique(a, failing, m + n, m + k2);
    }
  }

  /** An event queue (`eventqueue.Queue`). Attempts are numbered from zero; the ones in
      `failing` fail and leave the queue as it was. */
  class Queue {
    var events: seq<Wire.Event>
    var attempts: nat
    const failing: set<nat>

    constructor (failing: set<nat>)
      ensures events == [] && attempts == 0 && this.failing == failing
    {
      events := [];
      attempts := 0;
      this.failing := failing;
    }

    /** `Write`. */
    method Write(ev: Wire.Event) returns (r: Outcome)
      modifies this
      ensures attempts == old(attempts) + 1
      ensures r.Pass? <==> old(attempts) !in failing
      ensures r.Fail? ==> r.error == WriteError
      ensures events == if r.Pass? then old(events) + [ev] else old(events)
    {
      if attempts in failing {
        r := Fail(WriteError);
      } else {
        events := events + [ev];
        r := Pass;
      }
      attempts := attempts + 1;
    }
  }

  /** The key a session is stored under. */
  datatype SessionKey = SessionKey(appName: string, userID: string, sessionID: string)

  /** A session service (`session.Service`): the keys of the stored sessions. `getFails`
      and `createFails` make every `Get` or `Create` call fail. */
  class SessionStore {
    var sessions: set<SessionKey>
    const getFails: bool
    const createFails: bool

    constructor (sessions: set<SessionKey>, getFails: bool, createFails: bool)
      ensures this.sessions == sessions && this.getFails == getFails && this.createFails == createFails
    {
      this.sessions := sessions;
      this.getFails := getFails;
      this.createFails := createFails;
    }

    /** `Get`: whether a session is returned. */
    method Get(key: SessionKey) returns (found: bool)
      ensures found <==> !getFails && key in sessions
    {
      found := !getFails && key in sessions;
    }

    /** `Create`, with an empty initial state. */
    method Create(key: SessionKey) returns (r: Outcome)
      modifies this
      ensures r == (if createFails then Fail(CreateError) else Pass)
      ensures sessions == if createFails then old(sessions) else old(sessions) + {key}
    {
      if createFails {
        return Fail(CreateError);
      }
      sessions := sessions + {key};
      return Pass;
    }
  }

  /** One item of the sequence `runner.Run` yields: an event (possibly nil) or an error. */
  datatype RunItem = RunEvent(event: Option<Session.Event>) | RunError(message: string)

  /** The agent run's configuration (`agent.RunConfig`), reduced to its streaming mode. */
  datatype StreamingMode = StreamingNone | StreamingSSE | StreamingBidi
  datatype RunConfig = RunConfig(streamingMode: StreamingMode)

  const DefaultRunConfig := RunConfig(StreamingNone)

  /** What running the agent yields for a user, a session, a new message and a
      configuration. The agent itself is not part of this model. */
  type Runner = (string, string, GenAI.Content, RunConfig) -> seq<RunItem>
}
