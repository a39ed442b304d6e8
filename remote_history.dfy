/** The remote agent's view of the local session (agent/remoteagent/utils.go): which
    events the remote peer has not seen yet, how they are re-presented to it, and whether
    the session's last event answers a call the peer made. The session's event log is a
    sequence indexed from zero. */
module RemoteHistory {
  import opened Wrappers
  import opened Values
  import GenAI
  import Wire
  import Session
  import Parts
  import Events

  // ---- function-call continuation ----

  /** `isFunctionCallEvent`: some part of the event calls `callID`. */
  predicate IsFunctionCallEvent(e: Session.Event, callID: string) {
    e.response.content.Some? &&
    exists j | 0 <= j < |e.response.content.value.parts| ::
      e.response.content.value.parts[j].functionCall.Some? && e.response.content.value.parts[j].functionCall.value.id == callID
  }

  /** The index of the first part carrying a function response. */
  function FirstResponseIndex(ps: seq<GenAI.Part>): (r: Option<nat>)
    ensures r.Some? ==> r.value < |ps| && ps[r.value].functionResponse.Some?
    ensures r.Some? ==> forall j | 0 <= j < r.value :: ps[j].functionResponse.None?
    ensures r.None? ==> forall j | 0 <= j < |ps| :: ps[j].functionResponse.None?
  {
    if ps == [] then None
    else if ps[0].functionResponse.Some? then Some(0)
    else match FirstResponseIndex(ps[1..])
      case None => None
      case Some(i) => Some(i + 1)
  }

  /** `getFunctionResponseCallID`: the call ID of the event's first function response. */
  function FunctionResponseCallID(e: Session.Event): (r: Option<string>)
    ensures r.Some? <==> e.response.content.Some? && exists j | 0 <= j < |e.response.content.value.parts| :: e.response.content.value.parts[j].functionResponse.Some?
    ensures r.Some? ==> var ps := e.response.content.value.parts;
                        exists j | 0 <= j < |ps| :: ps[j].functionResponse.Some? && ps[j].functionResponse.value.id == r.value &&
                                                   forall k | 0 <= k < j :: ps[k].functionResponse.None?
  {
    if e.response.content.None? then None
    else match FirstResponseIndex(e.response.content.value.parts)
      case None => None
      case Some(i) => Some(e.response.content.value.parts[i].functionResponse.value.id)
  }

  /** The nearest event before index `n` that calls `callID`, by any author. */
  function LastCallBefore(events: seq<Session.Event>, n: nat, callID: string): (r: Option<nat>)
    requires n <= |events|
    ensures r.Some? ==> r.value < n && IsFunctionCallEvent(events[r.value], callID)
    ensures r.Some? ==> forall k | r.value < k < n :: !IsFunctionCallEvent(events[k], callID)
    ensures r.None? ==> forall k | 0 <= k < n :: !IsFunctionCallEvent(events[k], callID)
  {
    if n == 0 then None
    else if IsFunctionCallEvent(events[n - 1], callID) then Some(n - 1)
    else LastCallBefore(events, n - 1, callID)
  }

  /** `userFunctionCall`: the user's response event and the wire task and context of the
      event whose call it answers. */
  datatype UserFunctionCall = UserFunctionCall(event: Session.Event, taskID: string, contextID: string)

  /** What `getUserFunctionCallAt` returns. */
  function UserFunctionCallAt(events: seq<Session.Event>, index: int): (r: Option<UserFunctionCall>)
    ensures r.Some? ==> 0 <= index < |events| && r.value.event == events[index] && events[index].author == "user"
    ensures r.Some? ==> events[index].response.content.Some?
  {
    if index < 0 || index >= |events| || events[index].author != "user" then None
    else match FunctionResponseCallID(events[index])
      case None => None
      case Some(id) =>
        match LastCallBefore(events, index, id)
        case None => None
        case Some(j) =>
          var (tid, cid) := Events.GetA2ATaskInfo(Some(events[j]));
          Some(UserFunctionCall(events[index], tid, cid))
  }

  /** `getUserFunctionCallAt`: a backward scan from just before `index`. */
  method GetUserFunctionCallAt(events: seq<Session.Event>, index: int) returns (r: Option<UserFunctionCall>)
    ensures r == UserFunctionCallAt(events, index)
  {
    if index < 0 || index >= |events| {
      return None;
    }
    var candidate := events[index];
    if candidate.author != "user" {
      return None;
    }
    var id := FunctionResponseCallID(candidate);
    if id.None? {
      return None;
    }
    var i := index - 1;
    while i >= 0
      invariant -1 <= i < index
      invariant LastCallBefore(events, index, id.value) == LastCallBefore(events, i + 1, id.value)
      decreases i + 1
    {
      if IsFunctionCallEvent(events[i], id.value) {
        var (tid, cid) := Events.GetA2ATaskInfo(Some(events[i]));
        return Some(UserFunctionCall(candidate, tid, cid));
      }
      i := i - 1;
    }
    return None;
  }

  /** The event at `index` continues a call exactly when it is the user's, it carries a
      function response, and an earlier event, by any author, calls the ID of its first
      response; the task and context come from the nearest such event. */
  lemma UserFunctionCallAtMeaning(events: seq<Session.Event>, index: int)
    ensures var r := UserFunctionCallAt(events, index);
            && (r.Some? <==>
                  && 0 <= index < |events| && events[index].author == "user"
                  && FunctionResponseCallID(events[index]).Some?
                  && exists j | 0 <= j < index :: IsFunctionCallEvent(events[j], FunctionResponseCallID(events[index]).value))
            && (r.Some? ==>
                  var id := FunctionResponseCallID(events[index]).value;
                  && r.value.event == events[index]
                  && exists j | 0 <= j < index ::
                       && IsFunctionCallEvent(events[j], id)
                       && (forall k | j < k < index :: !IsFunctionCallEvent(events[k], id))
                       && (r.value.taskID, r.value.contextID) == Events.GetA2ATaskInfo(Some(events[j])))
  {
    if 0 <= index < |events| && events[index].author == "user" && FunctionResponseCallID(events[index]).Some? {
      var id := FunctionResponseCallID(events[index]).value;
      var c := LastCallBefore(events, index, id);
      if c.Some? {
        assert IsFunctionCallEvent(events[c.value], id);
      }
    }
  }

  // ---- re-presenting other agents' events ----

  /** How one part of another agent's event is shown to the remote peer: thoughts are
      dropped, text, calls and responses become narrated text, anything else is kept. */
  function PresentedPart(author: string, p: GenAI.Part): seq<GenAI.Part> {
    if p.thought then []
    else if p.text != "" then [GenAI.TextPart("[" + author + "] said: " + p.text)]
    else if p.functionCall.Some? then
      [GenAI.TextPart("[" + author + "] called tool " + p.functionCall.value.name + " with parameters: " + GoString(Obj(p.functionCall.value.args)))]
    else if p.functionResponse.Some? then
      [GenAI.TextPart("[" + author + "] " + p.functionResponse.value.name + " tool returned result: " + GoString(Obj(p.functionResponse.value.response)))]
    else [p]
  }

  function PresentedParts(author: string, ps: seq<GenAI.Part>): (r: seq<GenAI.Part>)
    ensures |r| <= |ps|
  {
    if ps == [] then [] else PresentedParts(author, ps[..|ps| - 1]) + PresentedPart(author, ps[|ps| - 1])
  }

  const ForContext := "For context:"

  /** What `presentAsUserMessage` returns: a fresh user event of the invocation holding
      "For context:" and the presented parts, with no content when nothing is left to
      present. */
  function Presented(ctx: Session.InvocationContext, e: Session.Event): (r: Session.Event)
    ensures r.author == "user" && r.invocationID == ctx.invocationID && r.longRunningToolIDs == []
    ensures r.response.content.Some? ==>
              && r.response.content.value.role == GenAI.RoleUser
              && |r.response.content.value.parts| > 1
              && r.response.content.value.parts[0] == GenAI.TextPart(ForContext)
  {
    var ev := Session.NewEvent(ctx.invocationID).(author := "user");
    if e.response.content.None? then ev
    else
      var ps := [GenAI.TextPart(ForContext)] + PresentedParts(e.author, e.response.content.value.parts);
      if |ps| > 1 then ev.(response := ev.response.(content := Some(GenAI.Content(GenAI.RoleUser, ps)))) else ev
  }

  /** `presentAsUserMessage`. */
  method PresentAsUserMessage(ctx: Session.InvocationContext, agentEvent: Session.Event) returns (event: Session.Event)
    ensures event == Presented(ctx, agentEvent)
  {
    event := Session.NewEvent(ctx.invocationID).(author := "user");
    if agentEvent.response.content.None? {
      return;
    }
    var src := agentEvent.response.content.value.parts;
    var author := agentEvent.author;
    var parts := [GenAI.TextPart(ForContext)];
    for i := 0 to |src|
      invariant parts == [GenAI.TextPart(ForContext)] + PresentedParts(author, src[..i])
    {
      PresentedPartsSnoc(author, src, i);
      AppendAssoc([GenAI.TextPart(ForContext)], PresentedParts(author, src[..i]), PresentedPart(author, src[i]));
      var part := src[i];
      if part.thought {
        continue;
      }
      if part.text != "" {
        parts := parts + [GenAI.TextPart("[" + author + "] said: " + part.text)];
      } else if part.functionCall.Some? {
        var call := part.functionCall.value;
        parts := parts + [GenAI.TextPart("[" + author + "] called tool " + call.name + " with parameters: " + GoString(Obj(call.args)))];
      } else if part.functionResponse.Some? {
        var resp := part.functionResponse.value;
        parts := parts + [GenAI.TextPart("[" + author + "] " + resp.name + " tool returned result: " + GoString(Obj(resp.response)))];
      } else {
        parts := parts + [part];
      }
    }
    SliceToEnd(src, 0);
    if |parts| > 1 {
      event := event.(response := event.response.(content := Some(GenAI.Content(GenAI.RoleUser, parts))));
    }
  }

  lemma AppendAssoc<T>(a: seq<T>, b: seq<T>, c: seq<T>)
    ensures a + (b + c) == a + b + c
  {
  }

  lemma PresentedPartsSnoc(author: string, ps: seq<GenAI.Part>, i: nat)
    requires i < |ps|
    ensures PresentedParts(author, ps[..i + 1]) == PresentedParts(author, ps[..i]) + PresentedPart(author, ps[i])
  {
    PrefixOfPrefix(ps, i);
  }

  lemma PresentedPartLength(author: string, p: GenAI.Part)
    ensures |PresentedPart(author, p)| == if p.thought then 0 else 1
  {
  }

  /** Every part but a thought is presented as exactly one part, so nothing is left to
      present exactly when all parts are thoughts. */
  lemma {:induction false} PresentedPartsCount(author: string, ps: seq<GenAI.Part>)
    ensures |PresentedParts(author, ps)| == |NonThoughts(ps)|
    ensures PresentedParts(author, ps) == [] <==> forall j | 0 <= j < |ps| :: ps[j].thought
  {
    if ps != [] {
      var init := ps[..|ps| - 1];
      PresentedPartsCount(author, init);
      PresentedPartLength(author, ps[|ps| - 1]);
      assert forall j | 0 <= j < |init| :: init[j] == ps[j];
      if !(forall j | 0 <= j < |ps| :: ps[j].thought) {
        if forall j | 0 <= j < |init| :: init[j].thought {
          assert !ps[|ps| - 1].thought;
        }
      }
    }
  }

  function NonThoughts(ps: seq<GenAI.Part>): (r: seq<GenAI.Part>)
    ensures forall j | 0 <= j < |r| :: !r[j].thought
  {
    if ps == [] then [] else NonThoughts(ps[..|ps| - 1]) + (if ps[|ps| - 1].thought then [] else [ps[|ps| - 1]])
  }

  /** A re-presented event has content exactly when the original has content and some
      part of it is not a thought; then it holds one part more than the non-thought parts. */
  lemma PresentedContent(ctx: Session.InvocationContext, e: Session.Event)
    ensures Presented(ctx, e).response.content.Some? <==>
              e.response.content.Some? && exists j | 0 <= j < |e.response.content.value.parts| :: !e.response.content.value.parts[j].thought
    ensures Presented(ctx, e).response.content.Some? ==>
              |Presented(ctx, e).response.content.value.parts| == 1 + |NonThoughts(e.response.content.value.parts)|
  {
    if e.response.content.Some? {
      PresentedPartsCount(e.author, e.response.content.value.parts);
    }
  }

  // ---- the parts the remote peer has not seen ----

  /** The index of the last event before `n` written by `name`, or -1. */
  function LastAuthoredBy(events: seq<Session.Event>, name: string, n: nat): (r: int)
    requires n <= |events|
    ensures -1 <= r < n
    ensures r >= 0 ==> events[r].author == name
    ensures forall k | r < k < n :: events[k].author != name
  {
    if n == 0 then -1
    else if events[n - 1].author == name then n - 1
    else LastAuthoredBy(events, name, n - 1)
  }

  /** What one event after the cut contributes: the wire parts of its content, after
      re-presenting it when neither the user nor this agent wrote it. An event without
      parts, or whose parts do not convert, contributes nothing. */
  function Contribution(ctx: Session.InvocationContext, e: Session.Event): seq<Wire.Part> {
    var ev := if e.author != "user" && e.author != ctx.agentName then Presented(ctx, e) else e;
    if ev.response.content.None? || |ev.response.content.value.parts| == 0 then []
    else match Parts.EncodeParts(ev.response.content.value.parts, ev.longRunningToolIDs)
      case Err(_) => []
      case Ok(ps) => ps
  }

  /** `f` of each of `es`, concatenated in order. */
  function Concat<T>(f: T -> seq<Wire.Part>, es: seq<T>): seq<Wire.Part> {
    if es == [] then [] else Concat(f, es[..|es| - 1]) + f(es[|es| - 1])
  }

  lemma ConcatSnoc<T>(f: T -> seq<Wire.Part>, es: seq<T>, e: T)
    ensures Concat(f, es + [e]) == Concat(f, es) + f(e)
  {
    assert (es + [e])[..|es|] == es;
  }

  lemma ConcatSliceSnoc<T>(f: T -> seq<Wire.Part>, es: seq<T>, a: nat, j: nat)
    requires a <= j < |es|
    ensures Concat(f, es[a..j + 1]) == Concat(f, es[a..j]) + f(es[j])
  {
    SliceSnoc(es, a, j);
    ConcatSnoc(f, es[a..j], es[j]);
  }

  function Contributions(ctx: Session.InvocationContext): Session.Event -> seq<Wire.Part> {
    e => Contribution(ctx, e)
  }

  /** One iteration of the forward pass of `toMissingRemoteSessionParts`. */
  method Contribute(ctx: Session.InvocationContext, e: Session.Event) returns (ps: seq<Wire.Part>)
    ensures ps == Contribution(ctx, e)
  {
    var event := e;
    if event.author != "user" && event.author != ctx.agentName {
      event := PresentAsUserMessage(ctx, event);
    }
    if event.response.content.None? || |event.response.content.value.parts| == 0 {
      return [];
    }
    var parts := Parts.ToA2AParts(event.response.content.value.parts, event.longRunningToolIDs);
    if parts.Err? {
      return [];
    }
    return parts.value;
  }

  /** What `toMissingRemoteSessionParts` returns: the contributions of the events after the
      last one this agent wrote, and the wire context recorded on that event ("" when there
      is none). */
  function MissingParts(ctx: Session.InvocationContext, events: seq<Session.Event>): (seq<Wire.Part>, string) {
    MissingPartsBy(Contributions(ctx), ContextOf, ctx.agentName, events)
  }

  /** The wire context recorded on an event. */
  const ContextOf: Session.Event -> string := e => Events.GetA2ATaskInfo(Some(e)).1

  /** The shape of `MissingParts`, for any contribution `f` and any context reader `g`. */
  function MissingPartsBy(f: Session.Event -> seq<Wire.Part>, g: Session.Event -> string, name: string,
                          events: seq<Session.Event>): (seq<Wire.Part>, string) {
    var cut := LastAuthoredBy(events, name, |events|);
    (Concat(f, events[cut + 1..]), if cut >= 0 then g(events[cut]) else "")
  }

  /** `toMissingRemoteSessionParts`: a backward scan for the cut, then a forward pass over
      the events after it. */
  method ToMissingRemoteSessionParts(ctx: Session.InvocationContext, events: seq<Session.Event>)
    returns (result: seq<Wire.Part>, contextID: string)
    ensures (result, contextID) == MissingParts(ctx, events)
  {
    contextID := "";
    var i := |events| - 1;
    while i >= 0 && events[i].author != ctx.agentName
      invariant -1 <= i < |events|
      invariant LastAuthoredBy(events, ctx.agentName, |events|) == LastAuthoredBy(events, ctx.agentName, i + 1)
      decreases i + 1
    {
      i := i - 1;
    }
    assert i == LastAuthoredBy(events, ctx.agentName, i + 1);
    var lastRemoteResponseIndex := i;
    if i >= 0 {
      contextID := Events.GetA2ATaskInfo(Some(events[i])).1;
    }
    result := ForwardPass(Contributions(ctx), events, lastRemoteResponseIndex + 1);
  }

  /** The forward pass of `toMissingRemoteSessionParts` over the events from `from` on,
      with `contribute` standing for the loop body (`Contributions(ctx)`, which the method
      `Contribute` computes). */
  method ForwardPass(contribute: Session.Event -> seq<Wire.Part>, events: seq<Session.Event>, from: nat)
    returns (result: seq<Wire.Part>)
    requires from <= |events|
    ensures result == Concat(contribute, events[from..])
  {
    result := [];
    for j := from to |events|
      invariant result == Concat(contribute, events[from..j])
    {
      ConcatSliceSnoc(contribute, events, from, j);
      var parts := contribute(events[j]);
      result := result + parts;
    }
    SliceToEnd(events, from);
  }

  /** Only the events strictly after the cut contribute: an event written by another
      author extends the missing parts with its contribution, and the reported context
      stays as it was. */
  lemma MissingPartsAppendOther(ctx: Session.InvocationContext, events: seq<Session.Event>, e: Session.Event)
    requires e.author != ctx.agentName
    ensures MissingParts(ctx, events + [e]) == (MissingParts(ctx, events).0 + Contribution(ctx, e), MissingParts(ctx, events).1)
  {
    MissingPartsByAppendOther(Contributions(ctx), ContextOf, ctx.agentName, events, e);
  }

  lemma MissingPartsByAppendOther(f: Session.Event -> seq<Wire.Part>, g: Session.Event -> string, name: string,
                                  events: seq<Session.Event>, e: Session.Event)
    requires e.author != name
    ensures MissingPartsBy(f, g, name, events + [e]).0 == MissingPartsBy(f, g, name, events).0 + f(e)
    ensures MissingPartsBy(f, g, name, events + [e]).1 == MissingPartsBy(f, g, name, events).1
  {
    var cut := LastAuthoredBy(events, name, |events|);
    CutAfterOther(events, e, name);
    AppendSlice(events, e, cut + 1);
    ConcatSnoc(f, events[cut + 1..], e);
    if cut >= 0 {
      AppendIndexBefore(events, e, cut);
    }
  }

  /** An event by another author does not move the cut. */
  lemma CutAfterOther(events: seq<Session.Event>, e: Session.Event, name: string)
    requires e.author != name
    ensures LastAuthoredBy(events + [e], name, |events + [e]|) == LastAuthoredBy(events, name, |events|)
  {
    var es := events + [e];
    LastAuthoredByPrefix(es, name, |events|);
    assert es[..|events|] == events;
  }

  lemma AppendIndexBefore<T>(s: seq<T>, e: T, k: nat)
    requires k < |s|
    ensures (s + [e])[k] == s[k]
  {
  }

  /** An event this agent writes is the new cut: nothing before it is missing, and its wire
      context is the one reported. */
  lemma MissingPartsAppendOwn(ctx: Session.InvocationContext, events: seq<Session.Event>, e: Session.Event)
    requires e.author == ctx.agentName
    ensures MissingParts(ctx, events + [e]) == ([], Events.GetA2ATaskInfo(Some(e)).1)
  {
    var es := events + [e];
    assert LastAuthoredBy(es, ctx.agentName, |es|) == |events|;
    SliceToEnd(es, |es|);
  }

  lemma PrefixOfPrefix<T>(s: seq<T>, i: nat)
    requires i < |s|
    ensures s[..i + 1][..i] == s[..i] && s[..i + 1][i] == s[i]
  {
  }

  lemma SliceSnoc<T>(s: seq<T>, a: nat, j: nat)
    requires a <= j < |s|
    ensures s[a..j + 1] == s[a..j] + [s[j]]
  {
  }

  lemma SliceToEnd<T>(s: seq<T>, a: nat)
    requires a <= |s|
    ensures s[a..|s|] == s[a..]
  {
  }

  lemma AppendSlice<T>(s: seq<T>, e: T, a: nat)
    requires a <= |s|
    ensures (s + [e])[a..] == s[a..] + [e]
  {
  }

  /** The cut is not moved by events before it. */
  lemma LastAuthoredByPrefix(events: seq<Session.Event>, name: string, n: nat)
    requires n < |events| && events[n].author != name
    ensures LastAuthoredBy(events, name, n + 1) == LastAuthoredBy(events, name, n)
    ensures n + 1 == |events| ==> LastAuthoredBy(events[..n], name, n) == LastAuthoredBy(events, name, n)
  {
    if n + 1 == |events| {
      LastAuthoredBySame(events[..n], events, name, n);
    }
  }

  /** `LastAuthoredBy` only reads the events before `n`. */
  lemma {:induction false} LastAuthoredBySame(a: seq<Session.Event>, b: seq<Session.Event>, name: string, n: nat)
    requires n <= |a| && n <= |b| && a[..n] == b[..n]
    ensures LastAuthoredBy(a, name, n) == LastAuthoredBy(b, name, n)
    decreases n
  {
    if n > 0 {
      assert a[n - 1] == a[..n][n - 1] == b[..n][n - 1] == b[n - 1];
      assert a[..n - 1] == a[..n][..n - 1];
      assert b[..n - 1] == b[..n][..n - 1];
      LastAuthoredBySame(a, b, name, n - 1);
    }
  }
}
