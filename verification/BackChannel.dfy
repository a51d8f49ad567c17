/** What the caller sends back for a tool proposal. */
module Kernel {

  datatype ToolResult = ToolResult(toolUseId: string, content: string, isError: bool)
}

/**
 * The OpenCode back-channel: HTTP handlers that wait on futures, the spawn loop that resolves them, timeouts and
 * shutdown, as atomic steps between `await` points. Any sequence of steps is an interleaving.
 */
module BackChannel {
  import opened Common
  import opened Kernel

  datatype Future = Pending | Resolved(result: ToolResult) | Failed | Cancelled

  datatype Response = Answer(result: ToolResult) | TimedOut504 | Error500 | Unknown404

  /**
   * A handler has registered its future, then waits with its proposal queued; its deadline may fire before it resumes.
   * It ends by responding, or is dropped with its connection.
   */
  datatype HandlerPhase = Registered | Waiting | DeadlinePassed | Responded | Dropped

  /** One `/propose` request; `session` is the session object it found, if any. */
  datatype Handler = Handler(callId: string, session: Option<nat>, future: Future, phase: HandlerPhase)

  datatype Item = McpProposal(callId: string) | BuiltInProposal(toolUseId: string) | PlainEvent(terminal: bool)

  /**
   * The spawn loop: being set up, draining its queue, paused on a proposal, paused on an event, in its `finally`,
   * past it, or abandoned before its `try` began.
   */
  datatype LoopPhase =
    Opening | Draining | Paused(toolUseId: string, mcp: bool) | Yielded(terminal: bool) | Closing | Closed | Abandoned

  datatype Session = Session(aggregate: string, queue: seq<Item>, pending: map<string, nat>, phase: LoopPhase)

  datatype State = State(
    registry: map<string, nat>,        // aggregate id to session object
    sessions: map<nat, Session>,       // every session object ever made
    handlers: map<nat, Handler>,       // every request ever made
    responses: seq<(nat, Response)>)   // in the order they were sent

  datatype Step =
    | OpenSession(sid: nat, aggregate: string)
    | SessionStarted(sid: nat)
    | CreateFailed(sid: nat)
    | StartFailed(sid: nat)
    | Propose(rid: nat, aggregate: string, callId: string)
    | Enqueue(rid: nat)
    | SseItem(sid: nat, item: Item)
    | TakeItem(sid: nat)
    | EventResumed(sid: nat)
    | QueueTimeout(sid: nat)
    | Asend(sid: nat, result: Option<ToolResult>, permissionFails: bool)
    | Stop(sid: nat)
    | Finalize(sid: nat)
    | Deadline(rid: nat)
    | Respond(rid: nat)
    | Drop(rid: nat)
    | Shutdown

  const Initial := State(map[], map[], map[], [])

  predicate Enabled(s: State, step: Step) {
    match step
    case OpenSession(sid, _) => sid !in s.sessions
    case SessionStarted(sid) => InPhase(s, sid, Opening)
    case CreateFailed(sid) => InPhase(s, sid, Opening)
    case StartFailed(sid) => InPhase(s, sid, Opening)
    case Propose(rid, _, _) => rid !in s.handlers
    case Enqueue(rid) => rid in s.handlers && s.handlers[rid].phase == Registered && s.handlers[rid].session.Some?
                         && s.handlers[rid].session.value in s.sessions
    case SseItem(sid, item) => sid in s.sessions && s.sessions[sid].phase != Closed && !item.McpProposal?
    case TakeItem(sid) => InPhase(s, sid, Draining) && s.sessions[sid].queue != []
    case EventResumed(sid) => sid in s.sessions && s.sessions[sid].phase.Yielded?
    case QueueTimeout(sid) => InPhase(s, sid, Draining)
    case Asend(sid, _, _) => sid in s.sessions && s.sessions[sid].phase.Paused?
    case Stop(sid) => sid in s.sessions && Looping(s.sessions[sid].phase)
    case Finalize(sid) => InPhase(s, sid, Closing)
    case Deadline(rid) => rid in s.handlers && s.handlers[rid].phase == Waiting
    case Respond(rid) => rid in s.handlers && CanRespond(s.handlers[rid])
    case Drop(rid) => rid in s.handlers && s.handlers[rid].phase in {Waiting, DeadlinePassed}
    case Shutdown => true
  }

  predicate InPhase(s: State, sid: nat, phase: LoopPhase) {
    sid in s.sessions && s.sessions[sid].phase == phase
  }

  predicate Looping(phase: LoopPhase) {
    phase.Draining? || phase.Paused? || phase.Yielded?
  }

  predicate CanRespond(h: Handler) {
    h.phase == DeadlinePassed || (h.phase == Waiting && (h.future.Resolved? || h.future.Failed?))
  }

  function WithPhase(s: State, sid: nat, phase: LoopPhase): State
    requires sid in s.sessions
  {
    s.(sessions := s.sessions[sid := s.sessions[sid].(phase := phase)])
  }

  /** Every future held in a pending table that is not done fails. */
  function FailHeld(handlers: map<nat, Handler>, held: set<nat>): map<nat, Handler> {
    map rid | rid in handlers ::
      if rid in held && handlers[rid].future == Pending then handlers[rid].(future := Failed) else handlers[rid]
  }

  function Held(s: State, sids: set<nat>): set<nat> {
    set sid, callId | sid in sids && sid in s.sessions && callId in s.sessions[sid].pending ::
      s.sessions[sid].pending[callId]
  }

  function Popped(session: Session, callId: string): Session {
    session.(pending := session.pending - {callId})
  }

  /** The asynchronous generator takes the next item off its queue. */
  function Taken(s: State, sid: nat): State
    requires sid in s.sessions && s.sessions[sid].queue != []
  {
    var session := s.sessions[sid];
    var phase := match session.queue[0]
                 case McpProposal(callId) => Paused(callId, true)
                 case BuiltInProposal(id) => Paused(id, false)
                 case PlainEvent(terminal) => Yielded(terminal);
    s.(sessions := s.sessions[sid := session.(queue := session.queue[1..], phase := phase)])
  }

  /** The caller sends a result back: a wrong one ends the loop; a right one resolves the future if it still waits. */
  function Dispatched(s: State, sid: nat, result: Option<ToolResult>, permissionFails: bool): State
    requires sid in s.sessions && s.sessions[sid].phase.Paused?
  {
    var session := s.sessions[sid];
    var expected, mcp := session.phase.toolUseId, session.phase.mcp;
    if result.None? || result.value.toolUseId != expected then WithPhase(s, sid, Closing)
    else if !mcp then WithPhase(s, sid, if permissionFails then Closing else Draining)
    else if expected !in session.pending then WithPhase(s, sid, Draining)
    else
      var rid := session.pending[expected];
      s.(sessions := s.sessions[sid := Popped(session, expected).(phase := Draining)],
         handlers := if rid in s.handlers && s.handlers[rid].future == Pending
                     then s.handlers[rid := s.handlers[rid].(future := Resolved(result.value))]
                     else s.handlers)
  }

  /** A handler's last segment: it sends its response, and on an error path first withdraws its pending entry. */
  function Answered(s: State, rid: nat): State
    requires rid in s.handlers
  {
    var h := s.handlers[rid];
    var response := if h.phase == DeadlinePassed then TimedOut504
                    else match h.future case Resolved(result) => Answer(result) case _ => Error500;
    var withdrawn := if response.Answer? || h.session.None? || h.session.value !in s.sessions then s.sessions
                     else s.sessions[h.session.value := Popped(s.sessions[h.session.value], h.callId)];
    s.(sessions := withdrawn, handlers := s.handlers[rid := h.(phase := Responded)],
       responses := s.responses + [(rid, response)])
  }

  function Proposed(s: State, rid: nat, aggregate: string, callId: string): State {
    if aggregate !in s.registry || s.registry[aggregate] !in s.sessions then
      s.(handlers := s.handlers[rid := Handler(callId, None, Cancelled, Responded)],
         responses := s.responses + [(rid, Unknown404)])
    else
      var sid := s.registry[aggregate];
      var session := s.sessions[sid];
      s.(handlers := s.handlers[rid := Handler(callId, Some(sid), Pending, Registered)],
         sessions := s.sessions[sid := session.(pending := session.pending[callId := rid])])
  }

  function Cancel(f: Future): Future {
    if f == Pending then Cancelled else f
  }

  function Next(s: State, step: Step): State {
    if !Enabled(s, step) then s
    else
      match step
      case OpenSession(sid, aggregate) =>
        s.(sessions := s.sessions[sid := Session(aggregate, [], map[], Opening)],
           registry := s.registry[aggregate := sid])
      case SessionStarted(sid) => WithPhase(s, sid, Draining)
      case CreateFailed(sid) =>
        WithPhase(s, sid, Abandoned).(registry := s.registry - {s.sessions[sid].aggregate})
      case StartFailed(sid) => WithPhase(s, sid, Abandoned)
      case Propose(rid, aggregate, callId) => Proposed(s, rid, aggregate, callId)
      case Enqueue(rid) =>
        var h := s.handlers[rid];
        var session := s.sessions[h.session.value];
        s.(handlers := s.handlers[rid := h.(phase := Waiting)],
           sessions := s.sessions[h.session.value := session.(queue := session.queue + [McpProposal(h.callId)])])
      case SseItem(sid, item) =>
        s.(sessions := s.sessions[sid := s.sessions[sid].(queue := s.sessions[sid].queue + [item])])
      case TakeItem(sid) => Taken(s, sid)
      case EventResumed(sid) => WithPhase(s, sid, if s.sessions[sid].phase.terminal then Closing else Draining)
      case QueueTimeout(sid) => WithPhase(s, sid, Closing)
      case Asend(sid, result, permissionFails) => Dispatched(s, sid, result, permissionFails)
      case Stop(sid) => WithPhase(s, sid, Closing)
      case Finalize(sid) =>
        WithPhase(s, sid, Closed).(registry := s.registry - {s.sessions[sid].aggregate},
                                   handlers := FailHeld(s.handlers, Held(s, {sid})))
      case Deadline(rid) =>
        var h := s.handlers[rid];
        s.(handlers := s.handlers[rid := h.(phase := DeadlinePassed, future := Cancel(h.future))])
      case Respond(rid) => Answered(s, rid)
      case Drop(rid) =>
        s.(handlers := s.handlers[rid := s.handlers[rid].(phase := Dropped, future := Cancel(s.handlers[rid].future))])
      case Shutdown =>
        s.(registry := map[],
           handlers := FailHeld(s.handlers, Held(s, s.registry.Values)),
           sessions := map sid | sid in s.sessions ::
             if sid in s.registry.Values then s.sessions[sid].(pending := map[]) else s.sessions[sid])
  }

  function Run(s: State, steps: seq<Step>): State
    decreases |steps|
  {
    if steps == [] then s else Run(Next(s, steps[0]), steps[1..])
  }
}

module BackChannelLaws {
  import opened Common
  import opened Kernel
  import opened BackChannel

  // ----- every interleaving -----

  /** Steps of request handlers; the others are steps of spawn loops and of shutdown. */
  predicate HandlerStep(step: Step) {
    step.Propose? || step.Enqueue? || step.Deadline? || step.Respond? || step.Drop?
  }

  /** A pending table leads only to the handlers that registered under that call id in that session. */
  ghost predicate TablesHonest(s: State) {
    forall sid, callId :: sid in s.sessions && callId in s.sessions[sid].pending ==>
      var rid := s.sessions[sid].pending[callId];
      rid in s.handlers && s.handlers[rid].callId == callId && s.handlers[rid].session == Some(sid)
  }

  /** A resolved future holds the result that answers its own call. */
  ghost predicate ResultsMatch(s: State) {
    forall rid :: rid in s.handlers && s.handlers[rid].future.Resolved? ==>
      s.handlers[rid].future.result.toolUseId == s.handlers[rid].callId
  }

  /** The response that a request's future and session call for; a deadline may come before any result is seen. */
  predicate Fits(h: Handler, response: Response) {
    match response
    case Answer(result) => h.future == Resolved(result) && result.toolUseId == h.callId
    case TimedOut504 => h.session.Some?
    case Error500 => h.session.Some? && h.future.Failed?
    case Unknown404 => h.session.None?
  }

  ghost predicate HasResponse(s: State, rid: nat) {
    exists i :: 0 <= i < |s.responses| && s.responses[i].0 == rid
  }

  /** Responses belong to handlers that are done, one each, and fit them; every handler that is done sent one. */
  ghost predicate ResponsesRight(s: State) {
    && (forall i :: 0 <= i < |s.responses| ==>
          var (rid, response) := s.responses[i];
          rid in s.handlers && s.handlers[rid].phase == Responded && Fits(s.handlers[rid], response))
    && (forall i, j :: 0 <= i < j < |s.responses| ==> s.responses[i].0 != s.responses[j].0)
    && (forall rid :: rid in s.handlers && s.handlers[rid].phase == Responded ==> HasResponse(s, rid))
  }

  /** A request that is past its wait has a future that can no longer change. */
  ghost predicate DoneSettled(s: State) {
    forall rid :: rid in s.handlers && s.handlers[rid].phase in {DeadlinePassed, Responded, Dropped} ==>
      s.handlers[rid].future != Pending
  }

  /** Only a request that found its session can wait. */
  ghost predicate WaitersRouted(s: State) {
    forall rid :: rid in s.handlers && s.handlers[rid].phase in {Waiting, DeadlinePassed} ==>
      s.handlers[rid].session.Some?
  }

  ghost predicate Safe(s: State) {
    TablesHonest(s) && ResultsMatch(s) && ResponsesRight(s) && DoneSettled(s) && WaitersRouted(s)
  }

  /** Only queues and loop phases moved, and no session went through its `finally`. */
  ghost predicate Quiet(s: State, t: State) {
    && t.registry == s.registry && t.handlers == s.handlers && t.responses == s.responses
    && t.sessions.Keys == s.sessions.Keys
    && forall sid :: sid in s.sessions ==>
         && t.sessions[sid].pending == s.sessions[sid].pending
         && t.sessions[sid].aggregate == s.sessions[sid].aggregate
         && (t.sessions[sid].phase == Closed ==> s.sessions[sid].phase == Closed)
  }

  /** Steps of a spawn loop that hand nothing over. */
  predicate QuietStep(step: Step) {
    || step.SseItem? || step.TakeItem? || step.EventResumed? || step.QueueTimeout? || step.Stop?
    || step.SessionStarted? || step.StartFailed?
  }

  lemma WithPhaseIsQuiet(s: State, sid: nat, phase: LoopPhase)
    requires sid in s.sessions && phase != Closed
    ensures Quiet(s, WithPhase(s, sid, phase))
  {
  }

  lemma QueueStepIsQuiet(s: State, step: Step)
    requires step.SseItem? || step.TakeItem?
    ensures Quiet(s, Next(s, step))
  {
  }

  lemma QuietStepIsQuiet(s: State, step: Step)
    requires QuietStep(step)
    ensures Quiet(s, Next(s, step))
  {
    if step.SseItem? || step.TakeItem? {
      QueueStepIsQuiet(s, step);
    } else if Enabled(s, step) {
      WithPhaseIsQuiet(s, step.sid, Next(s, step).sessions[step.sid].phase);
    }
  }

  /** The state after an asend that reaches a pending entry, or none. */
  ghost predicate HandsOver(s: State, t: State, sid: nat, result: ToolResult) {
    && sid in s.sessions && result.toolUseId in s.sessions[sid].pending
    && t.registry == s.registry && t.responses == s.responses
    && (exists phase :: phase != Closed &&
          t.sessions == s.sessions[sid := Popped(s.sessions[sid], result.toolUseId).(phase := phase)])
    && var rid := s.sessions[sid].pending[result.toolUseId];
       t.handlers == if rid in s.handlers && s.handlers[rid].future == Pending
                     then s.handlers[rid := s.handlers[rid].(future := Resolved(result))] else s.handlers
  }

  lemma AsendIsQuietOrHandsOver(s: State, step: Step)
    requires step.Asend?
    ensures Quiet(s, Next(s, step)) ||
            (step.result.Some? && HandsOver(s, Next(s, step), step.sid, step.result.value))
  {
    if Enabled(s, step) {
      var session := s.sessions[step.sid];
      var t := Next(s, step);
      if t == WithPhase(s, step.sid, t.sessions[step.sid].phase) && t.sessions[step.sid].phase != Closed {
        WithPhaseIsQuiet(s, step.sid, t.sessions[step.sid].phase);
      } else {
        assert t.sessions == s.sessions[step.sid := Popped(session, session.phase.toolUseId).(phase := Draining)];
      }
    }
  }

  lemma HandlerStepKeepsTables(s: State, step: Step)
    requires Safe(s) && HandlerStep(step)
    ensures TablesHonest(Next(s, step))
  {
  }

  lemma HandOverKeepsTables(s: State, t: State, sid: nat, result: ToolResult)
    requires TablesHonest(s) && HandsOver(s, t, sid, result)
    ensures TablesHonest(t)
  {
  }

  lemma EndingKeepsTables(s: State, step: Step)
    requires TablesHonest(s) && (step.Finalize? || step.Shutdown?)
    ensures TablesHonest(Next(s, step))
  {
  }

  lemma LoopStepKeepsTables(s: State, step: Step)
    requires TablesHonest(s) && !HandlerStep(step)
    ensures TablesHonest(Next(s, step))
  {
    if QuietStep(step) {
      QuietStepIsQuiet(s, step);
    } else if step.Asend? {
      AsendIsQuietOrHandsOver(s, step);
      if !Quiet(s, Next(s, step)) { HandOverKeepsTables(s, Next(s, step), step.sid, step.result.value); }
    } else if step.Finalize? || step.Shutdown? {
      EndingKeepsTables(s, step);
    }
  }

  lemma StepKeepsTables(s: State, step: Step)
    requires Safe(s)
    ensures TablesHonest(Next(s, step))
  {
    if HandlerStep(step) { HandlerStepKeepsTables(s, step); } else { LoopStepKeepsTables(s, step); }
  }

  lemma StepKeepsResults(s: State, step: Step)
    requires Safe(s)
    ensures ResultsMatch(Next(s, step))
  {
  }

  lemma HandlerStepKeepsSettled(s: State, step: Step)
    requires DoneSettled(s) && WaitersRouted(s) && HandlerStep(step)
    ensures DoneSettled(Next(s, step)) && WaitersRouted(Next(s, step))
  {
  }

  lemma LoopStepKeepsSettled(s: State, step: Step)
    requires DoneSettled(s) && WaitersRouted(s) && !HandlerStep(step)
    ensures DoneSettled(Next(s, step)) && WaitersRouted(Next(s, step))
  {
  }

  /** One handler that had not responded sends a response that fits it; the others that have responded stay. */
  ghost predicate Sends(s: State, t: State, rid: nat) {
    && t.responses != [] && t.responses[..|t.responses| - 1] == s.responses && t.responses[|s.responses|].0 == rid
    && !(rid in s.handlers && s.handlers[rid].phase == Responded)
    && rid in t.handlers && t.handlers[rid].phase == Responded && Fits(t.handlers[rid], t.responses[|s.responses|].1)
    && forall r :: r != rid ==>
         (r in s.handlers <==> r in t.handlers) && (r in s.handlers ==> t.handlers[r] == s.handlers[r])
  }

  lemma SendingKeepsResponses(s: State, t: State, rid: nat)
    requires ResponsesRight(s) && Sends(s, t, rid)
    ensures ResponsesRight(t)
  {
    assert forall i :: 0 <= i < |s.responses| ==> t.responses[i] == s.responses[i];
    forall r | r in t.handlers && t.handlers[r].phase == Responded ensures HasResponse(t, r) {
      if r == rid {
        assert t.responses[|s.responses|].0 == rid;
      } else {
        assert HasResponse(s, r);
        var i :| 0 <= i < |s.responses| && s.responses[i].0 == r;
        assert t.responses[i].0 == r;
      }
    }
  }

  lemma RespondKeepsResponses(s: State, step: Step)
    requires Safe(s) && step.Respond?
    ensures ResponsesRight(Next(s, step))
  {
    if Enabled(s, step) {
      SendingKeepsResponses(s, Next(s, step), step.rid);
    }
  }

  lemma ProposeKeepsResponses(s: State, step: Step)
    requires Safe(s) && step.Propose?
    ensures ResponsesRight(Next(s, step))
  {
    var t := Next(s, step);
    if Enabled(s, step) {
      if t.responses == s.responses {
        SilenceKeepsResponses(s, t);
      } else {
        SendingKeepsResponses(s, t, step.rid);
      }
    }
  }

  lemma SilenceKeepsResponses(s: State, t: State)
    requires ResponsesRight(s) && t.responses == s.responses
    requires forall rid :: rid in s.handlers && s.handlers[rid].phase == Responded ==>
               rid in t.handlers && t.handlers[rid] == s.handlers[rid]
    requires forall rid :: rid in t.handlers && t.handlers[rid].phase == Responded ==>
               rid in s.handlers && s.handlers[rid].phase == Responded
    ensures ResponsesRight(t)
  {
    forall rid | rid in t.handlers && t.handlers[rid].phase == Responded ensures HasResponse(t, rid) {
      assert HasResponse(s, rid);
    }
  }

  /** Nothing is sent, and no handler that has responded is moved or made. */
  ghost predicate Silent(s: State, t: State) {
    && t.responses == s.responses && t.handlers.Keys == s.handlers.Keys
    && forall rid :: rid in s.handlers ==>
         && (s.handlers[rid].phase == Responded ==> t.handlers[rid] == s.handlers[rid])
         && (t.handlers[rid].phase == Responded ==> s.handlers[rid].phase == Responded)
  }

  lemma OtherHandlerStepsAreSilent(s: State, step: Step)
    requires DoneSettled(s) && HandlerStep(step) && !step.Respond? && !step.Propose?
    ensures Silent(s, Next(s, step))
  {
  }

  lemma LoopStepsAreSilent(s: State, step: Step)
    requires DoneSettled(s) && !HandlerStep(step)
    ensures Silent(s, Next(s, step))
  {
  }

  lemma StepKeepsResponses(s: State, step: Step)
    requires Safe(s)
    ensures ResponsesRight(Next(s, step))
  {
    if step.Respond? {
      RespondKeepsResponses(s, step);
    } else if step.Propose? {
      ProposeKeepsResponses(s, step);
    } else {
      if HandlerStep(step) { OtherHandlerStepsAreSilent(s, step); } else { LoopStepsAreSilent(s, step); }
      SilenceKeepsResponses(s, Next(s, step));
    }
  }

  lemma StepIsSafe(s: State, step: Step)
    requires Safe(s)
    ensures Safe(Next(s, step))
  {
    StepKeepsTables(s, step);
    StepKeepsResults(s, step);
    StepKeepsResponses(s, step);
    if HandlerStep(step) { HandlerStepKeepsSettled(s, step); } else { LoopStepKeepsSettled(s, step); }
  }

  /** In every interleaving: at most one response per call, and an answer carries the result whose id is the call's. */
  lemma {:induction false} EveryRunIsSafe(s: State, steps: seq<Step>)
    requires Safe(s)
    ensures Safe(Run(s, steps))
    decreases |steps|
  {
    if steps != [] {
      StepIsSafe(s, steps[0]);
      EveryRunIsSafe(Next(s, steps[0]), steps[1..]);
    }
  }

  // ----- while no watched session reuses the call id of an unfinished request -----

  /** Every session object there can ever be. */
  ghost const Everyone: iset<nat> := iset sid: nat | true

  predicate Unfinished(h: Handler) {
    h.phase in {Registered, Waiting, DeadlinePassed}
  }

  /** No unfinished request of the session has this call id. */
  ghost predicate FreshFor(s: State, sid: nat, callId: string) {
    forall rid :: rid in s.handlers && s.handlers[rid].session == Some(sid) && Unfinished(s.handlers[rid]) ==>
      s.handlers[rid].callId != callId
  }

  /** If routed to a watched session, the step does not reuse the call id of an unfinished request there. */
  ghost predicate FreshCall(s: State, step: Step, watched: iset<nat>) {
    step.Propose? && step.aggregate in s.registry && s.registry[step.aggregate] in watched ==>
      FreshFor(s, s.registry[step.aggregate], step.callId)
  }

  ghost predicate FreshCalls(s: State, steps: seq<Step>, watched: iset<nat>)
    decreases |steps|
  {
    steps != [] ==> FreshCall(s, steps[0], watched) && FreshCalls(Next(s, steps[0]), steps[1..], watched)
  }

  /** No two unfinished requests of one watched session share a call id. */
  ghost predicate CallsDistinct(s: State, watched: iset<nat>) {
    forall a, b ::
      (&& a in s.handlers && b in s.handlers && a != b && Unfinished(s.handlers[a]) && Unfinished(s.handlers[b])
       && Watched(s.handlers[a], watched) && s.handlers[a].session == s.handlers[b].session)
      ==> s.handlers[a].callId != s.handlers[b].callId
  }

  ghost predicate Watched(h: Handler, watched: iset<nat>) {
    h.session.Some? && h.session.value in watched
  }

  /**
   * A future still pending is in the table of its session; a `finally` goes through that table, if one is ever
   * reached.
   */
  ghost predicate PendingIsHeld(s: State, watched: iset<nat>) {
    forall rid :: rid in s.handlers && Watched(s.handlers[rid], watched) && s.handlers[rid].future == Pending ==>
      var h := s.handlers[rid];
      && h.phase in {Registered, Waiting}
      && h.session.value in s.sessions
      && h.callId in s.sessions[h.session.value].pending
      && s.sessions[h.session.value].pending[h.callId] == rid
  }

  /** The registry knows sessions under their own aggregate, and none that went through its `finally`. */
  ghost predicate RegistryLive(s: State) {
    forall aggregate :: aggregate in s.registry ==>
      var sid := s.registry[aggregate];
      sid in s.sessions && s.sessions[sid].aggregate == aggregate && s.sessions[sid].phase != Closed
  }

  /** A watched session past its `finally` holds no unresolved future. */
  ghost predicate ClosedResolved(s: State, watched: iset<nat>) {
    forall rid :: rid in s.handlers && s.handlers[rid].session.Some? ==>
      var sid := s.handlers[rid].session.value;
      sid in s.sessions && (sid in watched && s.sessions[sid].phase == Closed ==> s.handlers[rid].future != Pending)
  }

  /** Only the end of a wait cancels a future. */
  ghost predicate WaitingNotCancelled(s: State) {
    forall rid :: rid in s.handlers && s.handlers[rid].phase in {Registered, Waiting} ==>
      s.handlers[rid].future != Cancelled
  }

  ghost predicate Tidy(s: State, watched: iset<nat>) {
    && TablesHonest(s) && RegistryLive(s) && WaitingNotCancelled(s)
    && CallsDistinct(s, watched) && PendingIsHeld(s, watched) && ClosedResolved(s, watched)
  }

  /** The request found its session and registered a future under its call id. */
  ghost predicate Registers(s: State, t: State, rid: nat, sid: nat, callId: string) {
    && rid !in s.handlers && sid in s.sessions && sid in s.registry.Values
    && t.registry == s.registry
    && t.handlers == s.handlers[rid := Handler(callId, Some(sid), Pending, Registered)]
    && t.sessions == s.sessions[sid := s.sessions[sid].(pending := s.sessions[sid].pending[callId := rid])]
  }

  lemma RegisteringKeepsTables(s: State, t: State, rid: nat, sid: nat, callId: string, watched: iset<nat>)
    requires Tidy(s, watched) && Registers(s, t, rid, sid, callId)
    requires sid in watched ==> FreshFor(s, sid, callId)
    ensures TablesHonest(t) && PendingIsHeld(t, watched)
  {
  }

  lemma RegisteringKeepsRest(s: State, t: State, rid: nat, sid: nat, callId: string, watched: iset<nat>)
    requires Tidy(s, watched) && Registers(s, t, rid, sid, callId)
    requires sid in watched ==> FreshFor(s, sid, callId)
    ensures CallsDistinct(t, watched) && RegistryLive(t) && ClosedResolved(t, watched) && WaitingNotCancelled(t)
  {
  }

  lemma RejectionKeepsTidy(s: State, rid: nat, callId: string, response: (nat, Response), watched: iset<nat>)
    requires Tidy(s, watched) && rid !in s.handlers
    ensures var rejected := Handler(callId, None, Cancelled, Responded);
            Tidy(s.(handlers := s.handlers[rid := rejected], responses := s.responses + [response]), watched)
  {
  }

  lemma ProposeKeepsTidy(s: State, step: Step, watched: iset<nat>)
    requires Tidy(s, watched) && FreshCall(s, step, watched) && step.Propose?
    ensures Tidy(Next(s, step), watched)
  {
    var t := Next(s, step);
    if step.rid in s.handlers {
    } else if step.aggregate in s.registry {
      var sid := s.registry[step.aggregate];
      RegisteringKeepsTables(s, t, step.rid, sid, step.callId, watched);
      RegisteringKeepsRest(s, t, step.rid, sid, step.callId, watched);
    } else {
      RejectionKeepsTidy(s, step.rid, step.callId, (step.rid, Unknown404), watched);
    }
  }

  lemma AnswerKeepsTidy(s: State, rid: nat, watched: iset<nat>)
    requires Tidy(s, watched) && rid in s.handlers
    requires s.handlers[rid].phase == Waiting && s.handlers[rid].future.Resolved?
    ensures Tidy(Answered(s, rid), watched)
  {
  }

  lemma ErrorResponseKeepsHeld(s: State, rid: nat, watched: iset<nat>)
    requires Tidy(s, watched) && rid in s.handlers && CanRespond(s.handlers[rid])
    requires s.handlers[rid].phase == DeadlinePassed || s.handlers[rid].future.Failed?
    ensures PendingIsHeld(Answered(s, rid), watched)
  {
  }

  lemma ErrorResponseKeepsTables(s: State, rid: nat, watched: iset<nat>)
    requires Tidy(s, watched) && rid in s.handlers && CanRespond(s.handlers[rid])
    requires s.handlers[rid].phase == DeadlinePassed || s.handlers[rid].future.Failed?
    ensures TablesHonest(Answered(s, rid)) && CallsDistinct(Answered(s, rid), watched)
  {
  }

  lemma ErrorResponseKeepsTidy(s: State, rid: nat, watched: iset<nat>)
    requires Tidy(s, watched) && rid in s.handlers && CanRespond(s.handlers[rid])
    requires s.handlers[rid].phase == DeadlinePassed || s.handlers[rid].future.Failed?
    ensures Tidy(Answered(s, rid), watched)
  {
    ErrorResponseKeepsTables(s, rid, watched);
    ErrorResponseKeepsHeld(s, rid, watched);
  }

  lemma RespondKeepsTidy(s: State, step: Step, watched: iset<nat>)
    requires Tidy(s, watched) && step.Respond?
    ensures Tidy(Next(s, step), watched)
  {
    if Enabled(s, step) {
      if s.handlers[step.rid].phase == Waiting && s.handlers[step.rid].future.Resolved? {
        AnswerKeepsTidy(s, step.rid, watched);
      } else {
        ErrorResponseKeepsTidy(s, step.rid, watched);
      }
    }
  }

  lemma EnqueueKeepsTidy(s: State, step: Step, watched: iset<nat>)
    requires Tidy(s, watched) && step.Enqueue?
    ensures Tidy(Next(s, step), watched)
  {
  }

  /** The handler stops waiting; its future, if still pending, is cancelled. */
  lemma EndOfWaitKeepsTidy(s: State, t: State, rid: nat, phase: HandlerPhase, watched: iset<nat>)
    requires Tidy(s, watched) && rid in s.handlers && Unfinished(s.handlers[rid])
    requires phase != Waiting && phase != Registered
    requires var h := s.handlers[rid];
             t == s.(handlers := s.handlers[rid := h.(phase := phase, future := Cancel(h.future))])
    ensures Tidy(t, watched)
  {
  }

  lemma QuietKeepsTidy(s: State, t: State, watched: iset<nat>)
    requires Tidy(s, watched) && Quiet(s, t)
    ensures Tidy(t, watched)
  {
  }

  lemma HandOverKeepsHeld(s: State, t: State, sid: nat, result: ToolResult, watched: iset<nat>)
    requires Tidy(s, watched) && HandsOver(s, t, sid, result)
    ensures PendingIsHeld(t, watched)
  {
  }

  lemma HandOverKeepsRest(s: State, t: State, sid: nat, result: ToolResult, watched: iset<nat>)
    requires Tidy(s, watched) && HandsOver(s, t, sid, result)
    ensures CallsDistinct(t, watched) && RegistryLive(t) && ClosedResolved(t, watched) && WaitingNotCancelled(t)
  {
  }

  lemma HandOverKeepsTidy(s: State, t: State, sid: nat, result: ToolResult, watched: iset<nat>)
    requires Tidy(s, watched) && HandsOver(s, t, sid, result)
    ensures Tidy(t, watched)
  {
    HandOverKeepsTables(s, t, sid, result);
    HandOverKeepsHeld(s, t, sid, result, watched);
    HandOverKeepsRest(s, t, sid, result, watched);
  }

  lemma AsendKeepsTidy(s: State, step: Step, watched: iset<nat>)
    requires Tidy(s, watched) && step.Asend?
    ensures Tidy(Next(s, step), watched)
  {
    AsendIsQuietOrHandsOver(s, step);
    if Quiet(s, Next(s, step)) {
      QuietKeepsTidy(s, Next(s, step), watched);
    } else {
      HandOverKeepsTidy(s, Next(s, step), step.sid, step.result.value, watched);
    }
  }

  lemma FinalizeKeepsHeld(s: State, step: Step, watched: iset<nat>)
    requires Tidy(s, watched) && step.Finalize?
    ensures PendingIsHeld(Next(s, step), watched)
  {
  }

  lemma FinalizeKeepsTidy(s: State, step: Step, watched: iset<nat>)
    requires Tidy(s, watched) && step.Finalize?
    ensures Tidy(Next(s, step), watched)
  {
    EndingKeepsTables(s, step);
    FinalizeKeepsHeld(s, step, watched);
  }

  lemma ShutdownKeepsHeld(s: State, step: Step, watched: iset<nat>)
    requires Tidy(s, watched) && step.Shutdown?
    ensures PendingIsHeld(Next(s, step), watched)
  {
  }

  lemma ShutdownKeepsTidy(s: State, step: Step, watched: iset<nat>)
    requires Tidy(s, watched) && step.Shutdown?
    ensures Tidy(Next(s, step), watched)
  {
    EndingKeepsTables(s, step);
    ShutdownKeepsHeld(s, step, watched);
  }

  lemma OpeningKeepsTidy(s: State, step: Step, watched: iset<nat>)
    requires Tidy(s, watched) && step.OpenSession?
    ensures Tidy(Next(s, step), watched)
  {
  }

  lemma FailedCreationKeepsTidy(s: State, step: Step, watched: iset<nat>)
    requires Tidy(s, watched) && step.CreateFailed?
    ensures Tidy(Next(s, step), watched)
  {
  }

  lemma StepKeepsTidy(s: State, step: Step, watched: iset<nat>)
    requires Tidy(s, watched) && FreshCall(s, step, watched)
    ensures Tidy(Next(s, step), watched)
  {
    if QuietStep(step) {
      QuietStepIsQuiet(s, step);
      QuietKeepsTidy(s, Next(s, step), watched);
    } else {
      match step
      case Propose(_, _, _) => ProposeKeepsTidy(s, step, watched);
      case Respond(_) => RespondKeepsTidy(s, step, watched);
      case Enqueue(_) => EnqueueKeepsTidy(s, step, watched);
      case Deadline(rid) => if Enabled(s, step) { EndOfWaitKeepsTidy(s, Next(s, step), rid, DeadlinePassed, watched); }
      case Drop(rid) => if Enabled(s, step) { EndOfWaitKeepsTidy(s, Next(s, step), rid, Dropped, watched); }
      case Asend(_, _, _) => AsendKeepsTidy(s, step, watched);
      case Finalize(_) => FinalizeKeepsTidy(s, step, watched);
      case Shutdown => ShutdownKeepsTidy(s, step, watched);
      case OpenSession(_, _) => OpeningKeepsTidy(s, step, watched);
      case CreateFailed(_) => FailedCreationKeepsTidy(s, step, watched);
    }
  }

  /** In every interleaving without such a reuse, a watched session past its `finally` holds no unresolved future. */
  lemma {:induction false} EveryRunIsTidy(s: State, steps: seq<Step>, watched: iset<nat>)
    requires Tidy(s, watched) && FreshCalls(s, steps, watched)
    ensures Tidy(Run(s, steps), watched)
    decreases |steps|
  {
    if steps != [] {
      StepKeepsTidy(s, steps[0], watched);
      EveryRunIsTidy(Next(s, steps[0]), steps[1..], watched);
    }
  }

  // ----- where responses come from -----

  /** The caller sent this result to this session's loop. */
  ghost predicate WasSent(past: seq<Step>, sid: nat, result: ToolResult) {
    exists k :: 0 <= k < |past| && past[k].Asend? && past[k].sid == sid && past[k].result == Some(result)
  }

  ghost predicate ResultsExplained(s: State, past: seq<Step>) {
    forall rid :: rid in s.handlers && s.handlers[rid].future.Resolved? ==>
      s.handlers[rid].session.Some? && WasSent(past, s.handlers[rid].session.value, s.handlers[rid].future.result)
  }

  ghost predicate DeadlinesExplained(s: State, past: seq<Step>) {
    && (forall rid :: rid in s.handlers && s.handlers[rid].phase == DeadlinePassed ==> Deadline(rid) in past)
    && (forall i :: 0 <= i < |s.responses| && s.responses[i].1 == TimedOut504 ==> Deadline(s.responses[i].0) in past)
  }

  lemma StepKeepsResultsExplained(s: State, past: seq<Step>, step: Step)
    requires TablesHonest(s) && ResultsExplained(s, past)
    ensures ResultsExplained(Next(s, step), past + [step])
  {
    var t := Next(s, step);
    forall rid | rid in t.handlers && t.handlers[rid].future.Resolved?
      ensures t.handlers[rid].session.Some?
              && WasSent(past + [step], t.handlers[rid].session.value, t.handlers[rid].future.result)
    {
      if rid in s.handlers && s.handlers[rid].future.Resolved? {
        var sid, result := s.handlers[rid].session.value, s.handlers[rid].future.result;
        var k :| 0 <= k < |past| && past[k].Asend? && past[k].sid == sid && past[k].result == Some(result);
        assert (past + [step])[k] == past[k];
      } else {
        assert (past + [step])[|past|] == step;
      }
    }
  }

  lemma StepKeepsDeadlinesExplained(s: State, past: seq<Step>, step: Step)
    requires DeadlinesExplained(s, past)
    ensures DeadlinesExplained(Next(s, step), past + [step])
  {
  }

  lemma {:induction false} EveryRunIsExplained(s: State, past: seq<Step>, steps: seq<Step>)
    requires Safe(s) && ResultsExplained(s, past) && DeadlinesExplained(s, past)
    ensures ResultsExplained(Run(s, steps), past + steps) && DeadlinesExplained(Run(s, steps), past + steps)
    decreases |steps|
  {
    if steps == [] {
      assert past + steps == past;
    } else {
      StepIsSafe(s, steps[0]);
      StepKeepsResultsExplained(s, past, steps[0]);
      StepKeepsDeadlinesExplained(s, past, steps[0]);
      EveryRunIsExplained(Next(s, steps[0]), past + [steps[0]], steps[1..]);
      assert past + [steps[0]] + steps[1..] == past + steps;
    }
  }

  /**
   * In every run from the start, every request that is done has exactly one response. One that carries a result
   * carries what the caller sent to that request's session under that request's call id; a timeout means the deadline
   * fired.
   */
  lemma OneResponsePerCallWithItsOwnResult(steps: seq<Step>, i: nat, j: nat)
    ensures var s := Run(Initial, steps);
            && (i < j < |s.responses| ==> s.responses[i].0 != s.responses[j].0)
            && (i in s.handlers && s.handlers[i].phase == Responded <==> HasResponse(s, i))
            && (i < |s.responses| ==>
                  var (rid, response) := s.responses[i];
                  && rid in s.handlers && Fits(s.handlers[rid], response)
                  && (response.Answer? ==>
                        s.handlers[rid].session.Some?
                        && WasSent(steps, s.handlers[rid].session.value, response.result))
                  && (response == TimedOut504 ==> Deadline(rid) in steps))
  {
    EveryRunIsSafe(Initial, steps);
    EveryRunIsExplained(Initial, [], steps);
    assert [] + steps == steps;
  }

  /**
   * While a session reuses no call id of an unfinished request: once it is past its `finally`, none of its futures is
   * unresolved, and every handler still waiting on one can respond at once. What other sessions do does not matter.
   */
  lemma ClosedSessionLeavesNobodyWaiting(steps: seq<Step>, sid: nat, rid: nat)
    requires FreshCalls(Initial, steps, iset{sid})
    ensures var s := Run(Initial, steps);
            (rid in s.handlers && s.handlers[rid].session == Some(sid) && InPhase(s, sid, Closed)) ==>
              && s.handlers[rid].future != Pending
              && (s.handlers[rid].phase in {Waiting, DeadlinePassed} ==> Enabled(s, Respond(rid)))
  {
    EveryRunIsTidy(Initial, steps, iset{sid});
  }

  // ----- what the promise needs -----

  /** Whatever happens next without a further reuse, no session past its `finally` holds an unresolved future. */
  ghost predicate StaysResolved(s: State) {
    forall steps :: FreshCalls(s, steps, Everyone) ==> ClosedResolved(Run(s, steps), Everyone)
  }

  /** The first request runs into its timeout and withdraws its entry, then the session's loop ends. */
  function Overtake(first: nat, sid: nat): seq<Step> {
    [Enqueue(first), Deadline(first), Respond(first), SessionStarted(sid), Stop(sid), Finalize(sid)]
  }

  /** Two unfinished requests of one live session share a call id, and the later one's future is pending. */
  ghost predicate Doubled(s: State, first: nat, second: nat, sid: nat) {
    && first in s.handlers && second in s.handlers && first != second && sid in s.sessions
    && s.handlers[first].session == Some(sid) && Unfinished(s.handlers[first])
    && s.handlers[second] == Handler(s.handlers[first].callId, Some(sid), Pending, Registered)
    && s.sessions[sid].phase !in {Closed, Abandoned}
  }

  /** The older request's timeout withdraws the entry of the newer one. */
  lemma TimeoutWithdrawsTheOther(s: State, first: nat, second: nat, sid: nat)
    requires Doubled(s, first, second, sid) && TablesHonest(s)
    ensures var t := Next(Next(Next(s, Enqueue(first)), Deadline(first)), Respond(first));
            && second in t.handlers && t.handlers[second] == s.handlers[second]
            && sid in t.sessions && t.sessions[sid].phase == s.sessions[sid].phase
            && s.handlers[second].callId !in t.sessions[sid].pending
  {
    var waiting := Next(s, Enqueue(first));
    assert waiting.handlers[first].phase in {Waiting, DeadlinePassed};
    assert waiting.handlers[first].callId == s.handlers[first].callId;
    var late := Next(waiting, Deadline(first));
    assert late.handlers[first].phase == DeadlinePassed && late.handlers[first].callId == s.handlers[first].callId;
  }

  /** A pending future that is in no table survives the end of the loop. */
  lemma UnheldSurvivesTheEnd(s: State, rid: nat, sid: nat)
    requires TablesHonest(s) && rid in s.handlers && s.handlers[rid].future == Pending
    requires s.handlers[rid].session == Some(sid) && sid in s.sessions && s.sessions[sid].phase !in {Closed, Abandoned}
    requires s.handlers[rid].callId !in s.sessions[sid].pending
    ensures !ClosedResolved(Next(Next(Next(s, SessionStarted(sid)), Stop(sid)), Finalize(sid)), Everyone)
  {
    var started := Next(s, SessionStarted(sid));
    var ending := Next(started, Stop(sid));
    assert ending.handlers == s.handlers && InPhase(ending, sid, Closing);
    assert ending.sessions[sid].pending == s.sessions[sid].pending;
    assert rid !in Held(ending, {sid});
    var t := Next(ending, Finalize(sid));
    assert t.handlers[rid] == s.handlers[rid] && t.sessions[sid].phase == Closed;
  }

  lemma DoubledLeaks(s: State, first: nat, second: nat, sid: nat)
    requires Doubled(s, first, second, sid) && Safe(s)
    ensures !StaysResolved(s)
  {
    var steps := Overtake(first, sid);
    var waiting := Next(s, Enqueue(first));
    var late := Next(waiting, Deadline(first));
    var t := Next(late, Respond(first));
    TimeoutWithdrawsTheOther(s, first, second, sid);
    StepIsSafe(s, Enqueue(first));
    StepIsSafe(waiting, Deadline(first));
    StepIsSafe(late, Respond(first));
    UnheldSurvivesTheEnd(t, second, sid);
    var started := Next(t, SessionStarted(sid));
    var ending := Next(started, Stop(sid));
    var closed := Next(ending, Finalize(sid));
    RunThree(s, waiting, late, t, steps);
    RunThree(t, started, ending, closed, steps[3..]);
    assert Run(s, steps) == closed;
    NoProposalIsFresh(s, steps);
  }

  lemma RunOne(s: State, t: State, steps: seq<Step>, rest: seq<Step>)
    requires steps != [] && t == Next(s, steps[0]) && rest == steps[1..]
    ensures Run(s, steps) == Run(t, rest)
  {
  }

  lemma RunThree(s: State, a: State, b: State, c: State, steps: seq<Step>)
    requires |steps| >= 3 && a == Next(s, steps[0]) && b == Next(a, steps[1]) && c == Next(b, steps[2])
    ensures Run(s, steps) == Run(c, steps[3..])
  {
    RunOne(s, a, steps, steps[1..]);
    RunOne(a, b, steps[1..], steps[2..]);
    RunOne(b, c, steps[2..], steps[3..]);
  }

  lemma {:induction false} NoProposalIsFresh(s: State, steps: seq<Step>)
    requires forall i :: 0 <= i < |steps| ==> !steps[i].Propose?
    ensures FreshCalls(s, steps, Everyone)
    decreases |steps|
  {
    if steps != [] {
      NoProposalIsFresh(Next(s, steps[0]), steps[1..]);
    }
  }

  lemma {:induction false} FewerWatched(s: State, steps: seq<Step>, watched: iset<nat>)
    requires FreshCalls(s, steps, Everyone)
    ensures FreshCalls(s, steps, watched)
    decreases |steps|
  {
    if steps != [] {
      FewerWatched(Next(s, steps[0]), steps[1..], watched);
    }
  }

  lemma StepKeepsAbandoned(s: State, sid: nat, step: Step)
    requires InPhase(s, sid, Abandoned)
    ensures InPhase(Next(s, step), sid, Abandoned)
  {
  }

  lemma {:induction false} AbandonedStays(s: State, sid: nat, steps: seq<Step>)
    requires InPhase(s, sid, Abandoned)
    ensures InPhase(Run(s, steps), sid, Abandoned)
    decreases |steps|
  {
    if steps != [] {
      StepKeepsAbandoned(s, sid, steps[0]);
      AbandonedStays(Next(s, steps[0]), sid, steps[1..]);
    }
  }

  /** Nothing accepted by an abandoned session can break a promise about the `finally` it never reaches. */
  lemma AcceptingWhenAbandoned(s: State, step: Step, sid: nat)
    requires Tidy(s, Everyone) && step.Propose? && InPhase(s, sid, Abandoned)
    requires step.aggregate in s.registry && s.registry[step.aggregate] == sid
    ensures StaysResolved(Next(s, step))
  {
    var t, others := Next(s, step), Everyone - iset{sid};
    assert Tidy(s, others);
    StepKeepsTidy(s, step, others);
    forall steps | FreshCalls(t, steps, Everyone) ensures ClosedResolved(Run(t, steps), Everyone) {
      FewerWatched(t, steps, others);
      EveryRunIsTidy(t, steps, others);
      AbandonedStays(t, sid, steps);
    }
  }

  /**
   * Exactly when accepting a request is harmless: its session is abandoned, or its call id is that of no unfinished
   * request of the session. Otherwise some continuation brings the session past its `finally` with a future unresolved;
   * only the end of that request's own wait is left to settle it.
   */
  lemma AcceptingIsHarmlessIff(s: State, rid: nat, aggregate: string, callId: string)
    requires Safe(s) && Tidy(s, Everyone) && rid !in s.handlers && aggregate in s.registry
    ensures StaysResolved(Next(s, Propose(rid, aggregate, callId))) <==>
              InPhase(s, s.registry[aggregate], Abandoned) || FreshFor(s, s.registry[aggregate], callId)
  {
    var sid, step := s.registry[aggregate], Propose(rid, aggregate, callId);
    var t := Next(s, step);
    if InPhase(s, sid, Abandoned) {
      AcceptingWhenAbandoned(s, step, sid);
    } else if FreshFor(s, sid, callId) {
      StepKeepsTidy(s, step, Everyone);
      forall steps | FreshCalls(t, steps, Everyone) ensures ClosedResolved(Run(t, steps), Everyone) {
        EveryRunIsTidy(t, steps, Everyone);
      }
    } else {
      var first :| first in s.handlers && s.handlers[first].session == Some(sid) && Unfinished(s.handlers[first])
                 && s.handlers[first].callId == callId;
      StepIsSafe(s, step);
      DoubledLeaks(t, first, rid, sid);
    }
  }

  /** Both sides occur: after one request, a second under its call id is harmful and any other is not. */
  lemma HarmIsReachable(sid: nat, aggregate: string, callId: string, other: string)
    ensures var s := Run(Initial, [OpenSession(sid, aggregate), Propose(0, aggregate, callId)]);
            && Safe(s) && Tidy(s, Everyone)
            && (StaysResolved(Next(s, Propose(1, aggregate, other))) <==> other != callId)
  {
    var s := AskedOnce(sid, aggregate, callId);
    AcceptingIsHarmlessIff(s, 1, aggregate, other);
  }

  /** A session opened and asked once, its creation still under way. */
  lemma AskedOnce(sid: nat, aggregate: string, callId: string) returns (s: State)
    ensures s == Run(Initial, [OpenSession(sid, aggregate), Propose(0, aggregate, callId)])
    ensures Safe(s) && Tidy(s, Everyone)
    ensures s.registry == map[aggregate := sid] && InPhase(s, sid, Opening)
    ensures s.handlers == map[0 := Handler(callId, Some(sid), Pending, Registered)]
  {
    var begun := Next(Initial, OpenSession(sid, aggregate));
    s := Next(begun, Propose(0, aggregate, callId));
    RunTwo(Initial, begun, s, [OpenSession(sid, aggregate), Propose(0, aggregate, callId)]);
    StepIsSafe(Initial, OpenSession(sid, aggregate));
    StepIsSafe(begun, Propose(0, aggregate, callId));
    StepKeepsTidy(Initial, OpenSession(sid, aggregate), Everyone);
    StepKeepsTidy(begun, Propose(0, aggregate, callId), Everyone);
  }

  lemma RunTwo(s: State, a: State, b: State, steps: seq<Step>)
    requires |steps| == 2 && a == Next(s, steps[0]) && b == Next(a, steps[1])
    ensures Run(s, steps) == b
  {
    RunOne(s, a, steps, steps[1..]);
    RunOne(a, b, steps[1..], []);
  }

  // ----- sessions that fail before their `try` -----

  /** An unresolved future of a session that was abandoned and so never reaches its `finally`. */
  ghost predicate Stranded(s: State, sid: nat, rid: nat) {
    && InPhase(s, sid, Abandoned) && rid in s.handlers
    && s.handlers[rid].session == Some(sid) && s.handlers[rid].future == Pending
  }

  /** The request's own timeout or the loss of its connection. */
  predicate EndsWait(step: Step, rid: nat) {
    step == Deadline(rid) || step == Drop(rid)
  }

  predicate NeverEndsWait(steps: seq<Step>, rid: nat) {
    forall i :: 0 <= i < |steps| ==> !EndsWait(steps[i], rid)
  }

  lemma HandlerStepEndsIff(s: State, sid: nat, rid: nat, step: Step)
    requires Safe(s) && Stranded(s, sid, rid) && HandlerStep(step)
    ensures Stranded(Next(s, step), sid, rid) <==> !(Enabled(s, step) && EndsWait(step, rid))
  {
  }

  lemma LoopStepEndsIff(s: State, sid: nat, rid: nat, step: Step)
    requires Safe(s) && Stranded(s, sid, rid) && !HandlerStep(step)
    ensures Stranded(Next(s, step), sid, rid) <==> !(step.Shutdown? && rid in Held(s, s.registry.Values))
  {
  }

  /** Exactly which steps settle a stranded future: the end of its own wait, or a shutdown that still finds it. */
  lemma StrandedEndsIff(s: State, sid: nat, rid: nat, step: Step)
    requires Safe(s) && Stranded(s, sid, rid)
    ensures Stranded(Next(s, step), sid, rid) <==>
              !(Enabled(s, step) && (EndsWait(step, rid) || (step.Shutdown? && rid in Held(s, s.registry.Values))))
  {
    if HandlerStep(step) { HandlerStepEndsIff(s, sid, rid, step); } else { LoopStepEndsIff(s, sid, rid, step); }
  }

  /** A deregistered session is never registered again. */
  lemma OutStaysOut(s: State, sid: nat, step: Step)
    requires sid in s.sessions && sid !in s.registry.Values
    ensures sid in Next(s, step).sessions && sid !in Next(s, step).registry.Values
  {
  }

  /**
   * Out of the registry nothing but the end of its own wait settles it; in the registry, nothing else but a shutdown.
   */
  lemma {:induction false} StrandedStays(s: State, sid: nat, rid: nat, steps: seq<Step>)
    requires Safe(s) && Stranded(s, sid, rid) && NeverEndsWait(steps, rid)
    requires sid !in s.registry.Values || Shutdown !in steps
    ensures Stranded(Run(s, steps), sid, rid)
    decreases |steps|
  {
    if steps != [] {
      StrandedEndsIff(s, sid, rid, steps[0]);
      StepIsSafe(s, steps[0]);
      if sid !in s.registry.Values {
        OutStaysOut(s, sid, steps[0]);
      }
      StrandedStays(Next(s, steps[0]), sid, rid, steps[1..]);
    }
  }

  /** The request stays unresolved through every run that does not end its own wait. */
  ghost predicate UnresolvedForGood(s: State, rid: nat) {
    forall steps :: NeverEndsWait(steps, rid) ==>
      rid in Run(s, steps).handlers && Run(s, steps).handlers[rid].future == Pending
  }

  /** The same, for runs without a shutdown. */
  ghost predicate UnresolvedUntilShutdown(s: State, rid: nat) {
    forall steps :: NeverEndsWait(steps, rid) && Shutdown !in steps ==>
      rid in Run(s, steps).handlers && Run(s, steps).handlers[rid].future == Pending
  }

  /**
   * A failed creation leaves a call unresolved for good, its own timeout aside, exactly if it is pending at that
   * moment.
   */
  lemma FailedCreationStrandsIff(s: State, sid: nat, rid: nat)
    requires Safe(s) && RegistryLive(s) && InPhase(s, sid, Opening)
    requires rid in s.handlers && s.handlers[rid].session == Some(sid)
    ensures UnresolvedForGood(Next(s, CreateFailed(sid)), rid) <==> s.handlers[rid].future == Pending
  {
    var t := Next(s, CreateFailed(sid));
    assert Run(t, []) == t && NeverEndsWait([], rid);
    if s.handlers[rid].future == Pending {
      StepIsSafe(s, CreateFailed(sid));
      forall steps | NeverEndsWait(steps, rid)
        ensures rid in Run(t, steps).handlers && Run(t, steps).handlers[rid].future == Pending
      {
        StrandedStays(t, sid, rid, steps);
      }
    }
  }

  /**
   * A failed start leaves the session registered: its pending calls stay unresolved until a shutdown or their
   * timeout.
   */
  lemma FailedStartStrandsIff(s: State, sid: nat, rid: nat)
    requires Safe(s) && InPhase(s, sid, Opening)
    requires rid in s.handlers && s.handlers[rid].session == Some(sid)
    ensures UnresolvedUntilShutdown(Next(s, StartFailed(sid)), rid) <==> s.handlers[rid].future == Pending
    ensures Next(s, StartFailed(sid)).registry == s.registry
  {
    var t := Next(s, StartFailed(sid));
    assert Run(t, []) == t && NeverEndsWait([], rid);
    if s.handlers[rid].future == Pending {
      StepIsSafe(s, StartFailed(sid));
      forall steps | NeverEndsWait(steps, rid) && Shutdown !in steps
        ensures rid in Run(t, steps).handlers && Run(t, steps).handlers[rid].future == Pending
      {
        StrandedStays(t, sid, rid, steps);
      }
    }
  }

  /** A shutdown settles a stranded future exactly if its session is still registered, no call id having been reused. */
  lemma ShutdownSettlesIff(s: State, sid: nat, rid: nat)
    requires Safe(s) && PendingIsHeld(s, iset{sid}) && Stranded(s, sid, rid)
    ensures Next(s, Shutdown).handlers[rid].future == if sid in s.registry.Values then Failed else Pending
  {
    var h := s.handlers[rid];
    assert s.sessions[sid].pending[h.callId] == rid;
    assert rid in Held(s, s.registry.Values) <==> sid in s.registry.Values;
  }

  /** The shortest case: begun, asked, creation failed; not even a shutdown resolves the call. */
  lemma FailedCreationLeavesFuturePending(sid: nat, aggregate: string, callId: string)
    ensures var s := Run(Initial, [OpenSession(sid, aggregate), Propose(0, aggregate, callId)]);
            UnresolvedForGood(Next(s, CreateFailed(sid)), 0)
  {
    var s := AskedOnce(sid, aggregate, callId);
    FailedCreationStrandsIff(s, sid, 0);
  }
}
