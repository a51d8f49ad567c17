/** What the back-channel is for: a proposal is taken in its turn, and its result reaches the request waiting for it. */
module BackChannelDelivery {
  import opened Common
  import opened Queues
  import opened Kernel
  import opened BackChannel
  import opened BackChannelLaws

  // ----- one proposal -----

  /** The request waits on a pending future that its session holds under its call id. */
  ghost predicate Awaits(s: State, sid: nat, rid: nat) {
    && sid in s.sessions && rid in s.handlers
    && var h := s.handlers[rid];
       && h.phase == Waiting && h.future == Pending && h.session == Some(sid)
       && h.callId in s.sessions[sid].pending && s.sessions[sid].pending[h.callId] == rid
  }

  ghost predicate HeadIs(s: State, sid: nat, item: Item) {
    InPhase(s, sid, Draining) && s.sessions[sid].queue != [] && s.sessions[sid].queue[0] == item
  }

  /** Taking the proposal of a waiting request pauses the loop on it and touches nothing else. */
  lemma TakingProposes(s: State, sid: nat, callId: string)
    requires HeadIs(s, sid, McpProposal(callId))
    ensures var session := s.sessions[sid];
            Next(s, TakeItem(sid)) ==
              s.(sessions := s.sessions[sid := session.(queue := session.queue[1..], phase := Paused(callId, true))])
  {
  }

  /** The right result resolves the request that is waiting, withdraws its entry, and lets the loop go on. */
  lemma RightResultResolves(s: State, sid: nat, rid: nat, result: ToolResult, permissionFails: bool)
    requires Awaits(s, sid, rid) && InPhase(s, sid, Paused(result.toolUseId, true))
    requires s.handlers[rid].callId == result.toolUseId
    ensures var t := Next(s, Asend(sid, Some(result), permissionFails)); var session := s.sessions[sid];
            && t.handlers == s.handlers[rid := s.handlers[rid].(future := Resolved(result))]
            && t.sessions ==
                 s.sessions[sid := session.(pending := session.pending - {result.toolUseId}, phase := Draining)]
            && t.responses == s.responses && t.registry == s.registry
  {
  }

  /** A resolved request that has not run out of time answers with its result. */
  lemma ResolvedResponds(s: State, rid: nat, result: ToolResult)
    requires rid in s.handlers && s.handlers[rid].phase == Waiting && s.handlers[rid].future == Resolved(result)
    ensures Next(s, Respond(rid)).responses == s.responses + [(rid, Answer(result))]
  {
  }

  /** Taken, answered by the caller, sent back: the whole way of one proposal. */
  lemma ProposalIsAnswered(s: State, sid: nat, rid: nat, result: ToolResult, permissionFails: bool)
    requires Awaits(s, sid, rid) && s.handlers[rid].callId == result.toolUseId
    requires HeadIs(s, sid, McpProposal(result.toolUseId))
    ensures var t := Next(Next(s, TakeItem(sid)), Asend(sid, Some(result), permissionFails));
            && t.handlers[rid].future == Resolved(result) && InPhase(t, sid, Draining)
            && result.toolUseId !in t.sessions[sid].pending && t.sessions[sid].queue == s.sessions[sid].queue[1..]
            && Next(t, Respond(rid)).responses == s.responses + [(rid, Answer(result))]
  {
    var paused := Next(s, TakeItem(sid));
    TakingProposes(s, sid, result.toolUseId);
    assert Awaits(paused, sid, rid);
    RightResultResolves(paused, sid, rid, result, permissionFails);
    ResolvedResponds(Next(paused, Asend(sid, Some(result), permissionFails)), rid, result);
  }

  /** No result, or one for another call, ends the loop and resolves nobody, whatever the loop is paused on. */
  lemma WrongResultEndsLoop(s: State, sid: nat, result: Option<ToolResult>, permissionFails: bool)
    requires sid in s.sessions && s.sessions[sid].phase.Paused?
    requires result.None? || result.value.toolUseId != s.sessions[sid].phase.toolUseId
    ensures Next(s, Asend(sid, result, permissionFails)) ==
              s.(sessions := s.sessions[sid := s.sessions[sid].(phase := Closing)])
  {
  }

  /** A built-in proposal is answered over the permission API: no future is touched, only its failure ends the loop. */
  lemma BuiltInTouchesNoFuture(s: State, sid: nat, result: ToolResult, permissionFails: bool)
    requires HeadIs(s, sid, BuiltInProposal(result.toolUseId))
    ensures var t := Next(Next(s, TakeItem(sid)), Asend(sid, Some(result), permissionFails));
            var session := s.sessions[sid];
            t == s.(sessions := s.sessions[sid := session.(queue := session.queue[1..],
                                                           phase := if permissionFails then Closing else Draining)])
  {
    var session := s.sessions[sid];
    var paused := Next(s, TakeItem(sid));
    assert paused ==
      s.(sessions := s.sessions[sid := session.(queue := session.queue[1..],
                                                phase := Paused(result.toolUseId, false))]);
  }

  /** Any other event is passed on; only a terminal one ends the loop. */
  lemma EventPassesThrough(s: State, sid: nat, terminal: bool)
    requires HeadIs(s, sid, PlainEvent(terminal))
    ensures var t := Next(Next(s, TakeItem(sid)), EventResumed(sid)); var session := s.sessions[sid];
            t == s.(sessions := s.sessions[sid := session.(queue := session.queue[1..],
                                                           phase := if terminal then Closing else Draining)])
  {
    var session := s.sessions[sid];
    var yielded := Next(s, TakeItem(sid));
    assert yielded ==
      s.(sessions := s.sessions[sid := session.(queue := session.queue[1..], phase := Yielded(terminal))]);
  }

  /** A loop that waits too long, or is closed from outside, ends. */
  lemma TimeoutAndStopEndLoop(s: State, sid: nat)
    requires sid in s.sessions && Looping(s.sessions[sid].phase)
    ensures InPhase(Next(s, Stop(sid)), sid, Closing)
    ensures InPhase(s, sid, Draining) ==> InPhase(Next(s, QueueTimeout(sid)), sid, Closing)
  {
  }

  /** A request is routed by its aggregate: to the session registered for it, or answered with 404. */
  lemma ProposalIsRouted(s: State, rid: nat, aggregate: string, callId: string)
    requires rid !in s.handlers && RegistryLive(s)
    ensures var t := Next(s, Propose(rid, aggregate, callId));
            && rid in t.handlers && t.handlers[rid].callId == callId
            && if aggregate in s.registry then
                 var sid := s.registry[aggregate];
                 && t.handlers[rid].session == Some(sid) && t.responses == s.responses
                 && callId in t.sessions[sid].pending && t.sessions[sid].pending[callId] == rid
                 && t.handlers[rid].phase == Registered && t.handlers[rid].future == Pending
               else t.responses == s.responses + [(rid, Unknown404)]
  {
  }

  /** A registered request enters its own session's queue, at the end, under its own call id. */
  lemma RegisteredEnqueues(s: State, sid: nat, rid: nat)
    requires rid in s.handlers && s.handlers[rid].phase == Registered && s.handlers[rid].session == Some(sid)
    requires sid in s.sessions
    ensures var t := Next(s, Enqueue(rid));
            && t.sessions[sid].queue == s.sessions[sid].queue + [McpProposal(s.handlers[rid].callId)]
            && t.handlers == s.handlers[rid := s.handlers[rid].(phase := Waiting)]
  {
  }

  /** Exactly when a request responds, and with what: 504 when late, 500 when failed, else its result. */
  lemma RespondsIff(s: State, rid: nat)
    ensures Next(s, Respond(rid)).responses ==
              s.responses +
              if rid !in s.handlers then []
              else if s.handlers[rid].phase == DeadlinePassed then [(rid, TimedOut504)]
              else if s.handlers[rid].phase != Waiting then []
              else match s.handlers[rid].future
                case Resolved(result) => [(rid, Answer(result))]
                case Failed => [(rid, Error500)]
                case _ => []
  {
  }

  /** An answer leaves the tables alone; an error response first withdraws what the session holds under its call id. */
  lemma RespondingWithdraws(s: State, rid: nat, sid: nat)
    requires rid in s.handlers && s.handlers[rid].session == Some(sid) && sid in s.sessions
    ensures var h, session, t := s.handlers[rid], s.sessions[sid], Next(s, Respond(rid));
            && (h.phase == Waiting && h.future.Resolved? ==> t.sessions == s.sessions)
            && (h.phase == DeadlinePassed || (h.phase == Waiting && h.future.Failed?) ==>
                  t.sessions == s.sessions[sid := session.(pending := session.pending - {h.callId})])
            && t.registry == s.registry
  {
  }

  /** A session is registered empty under its aggregate; its set-up succeeds, or fails before its `try`. */
  lemma SessionsBegin(s: State, sid: nat, aggregate: string)
    requires sid !in s.sessions
    ensures var opening := Next(s, OpenSession(sid, aggregate));
            && opening.registry == s.registry[aggregate := sid] && opening.handlers == s.handlers
            && opening.sessions == s.sessions[sid := Session(aggregate, [], map[], Opening)]
            && InPhase(Next(opening, SessionStarted(sid)), sid, Draining)
            && InPhase(Next(opening, StartFailed(sid)), sid, Abandoned)
            && Next(opening, StartFailed(sid)).registry == opening.registry
            && InPhase(Next(opening, CreateFailed(sid)), sid, Abandoned)
            && aggregate !in Next(opening, CreateFailed(sid)).registry
  {
  }

  /** The `finally` deregisters and closes its session; a shutdown deregisters all and clears their tables. */
  lemma SessionsEnd(s: State, sid: nat)
    requires sid in s.sessions && s.sessions[sid].phase == Closing
    ensures var t, down := Next(s, Finalize(sid)), Next(s, Shutdown);
            && t.registry == s.registry - {s.sessions[sid].aggregate}
            && t.sessions == s.sessions[sid := s.sessions[sid].(phase := Closed)]
            && down.registry == map[] && down.sessions.Keys == s.sessions.Keys
            && forall other :: other in s.sessions ==>
                 down.sessions[other] ==
                   if other in s.registry.Values then s.sessions[other].(pending := map[]) else s.sessions[other]
  {
  }

  // ----- what becomes of a future -----

  /** Some entry of the session leads to the request. */
  ghost predicate HeldIn(s: State, sid: nat, rid: nat) {
    sid in s.sessions && exists callId :: callId in s.sessions[sid].pending && s.sessions[sid].pending[callId] == rid
  }

  /** The session's loop is paused on this result's call and holds the request under it. */
  ghost predicate AwaitsResult(s: State, sid: nat, rid: nat, result: ToolResult) {
    && sid in s.sessions && s.sessions[sid].phase == Paused(result.toolUseId, true)
    && result.toolUseId in s.sessions[sid].pending && s.sessions[sid].pending[result.toolUseId] == rid
  }

  /** What a pending future is after a step: only the end of its wait, its session's end and its result settle it. */
  ghost function Fate(s: State, step: Step, rid: nat): Future
    requires rid in s.handlers
  {
    match step
    case Deadline(r) => if r == rid && s.handlers[rid].phase == Waiting then Cancelled else Pending
    case Drop(r) =>
      if r == rid && (s.handlers[rid].phase == Waiting || s.handlers[rid].phase == DeadlinePassed) then Cancelled
      else Pending
    case Finalize(sid) => if HeldIn(s, sid, rid) && s.sessions[sid].phase == Closing then Failed else Pending
    case Shutdown => if exists sid :: sid in s.registry.Values && HeldIn(s, sid, rid) then Failed else Pending
    case Asend(sid, Some(result), _) => if AwaitsResult(s, sid, rid, result) then Resolved(result) else Pending
    case _ => Pending
  }

  ghost predicate MeetsFate(s: State, step: Step, rid: nat)
    requires rid in s.handlers
  {
    var f, t := s.handlers[rid].future, Next(s, step);
    rid in t.handlers && t.handlers[rid].future == if f == Pending then Fate(s, step, rid) else f
  }

  lemma HandlerStepFate(s: State, step: Step, rid: nat)
    requires rid in s.handlers && HandlerStep(step)
    ensures MeetsFate(s, step, rid)
  {
  }

  lemma AsendFate(s: State, step: Step, rid: nat)
    requires rid in s.handlers && step.Asend?
    ensures MeetsFate(s, step, rid)
  {
  }

  lemma EndingFate(s: State, step: Step, rid: nat)
    requires rid in s.handlers && (step.Finalize? || step.Shutdown?)
    ensures MeetsFate(s, step, rid)
  {
  }

  lemma OtherFate(s: State, step: Step, rid: nat)
    requires rid in s.handlers && !HandlerStep(step) && !step.Asend? && !step.Finalize? && !step.Shutdown?
    ensures Next(s, step).handlers == s.handlers
  {
  }

  /** Exactly what every step makes of every future; one that is settled stays as it is. */
  lemma FutureFate(s: State, step: Step, rid: nat)
    requires rid in s.handlers
    ensures MeetsFate(s, step, rid)
  {
    if HandlerStep(step) {
      HandlerStepFate(s, step, rid);
    } else if step.Asend? {
      AsendFate(s, step, rid);
    } else if step.Finalize? || step.Shutdown? {
      EndingFate(s, step, rid);
    } else {
      OtherFate(s, step, rid);
    }
  }

  // ----- first in, first out -----

  /** What a step puts on the session's queue: a registered request its proposal, the event stream its items. */
  function PutBy(s: State, step: Step, sid: nat): seq<Item>
    requires sid in s.sessions
  {
    match step
    case Enqueue(rid) =>
      if rid in s.handlers && s.handlers[rid].phase == Registered && s.handlers[rid].session == Some(sid)
      then [McpProposal(s.handlers[rid].callId)] else []
    case SseItem(other, item) =>
      if other == sid && !item.McpProposal? && s.sessions[sid].phase != Closed then [item] else []
    case _ => []
  }

  /** What a step takes off the session's queue. */
  function TakenBy(s: State, step: Step, sid: nat): seq<Item>
    requires sid in s.sessions
  {
    if step == TakeItem(sid) && s.sessions[sid].phase == Draining && s.sessions[sid].queue != []
    then [s.sessions[sid].queue[0]] else []
  }

  lemma SessionsStay(s: State, step: Step, sid: nat)
    requires sid in s.sessions
    ensures sid in Next(s, step).sessions
  {
  }

  ghost function Puts(s: State, steps: seq<Step>, sid: nat): seq<Item>
    requires sid in s.sessions
    decreases |steps|
  {
    if steps == [] then []
    else
      SessionsStay(s, steps[0], sid);
      PutBy(s, steps[0], sid) + Puts(Next(s, steps[0]), steps[1..], sid)
  }

  ghost function Takes(s: State, steps: seq<Step>, sid: nat): seq<Item>
    requires sid in s.sessions
    decreases |steps|
  {
    if steps == [] then []
    else
      SessionsStay(s, steps[0], sid);
      TakenBy(s, steps[0], sid) + Takes(Next(s, steps[0]), steps[1..], sid)
  }

  /** The queue plus what the step puts is what the step takes plus the queue it leaves. */
  ghost predicate QueueKept(s: State, step: Step, sid: nat)
    requires sid in s.sessions
  {
    && sid in Next(s, step).sessions
    && s.sessions[sid].queue + PutBy(s, step, sid) == TakenBy(s, step, sid) + Next(s, step).sessions[sid].queue
  }

  lemma HandlerStepKeepsQueue(s: State, step: Step, sid: nat)
    requires sid in s.sessions && HandlerStep(step)
    ensures QueueKept(s, step, sid)
  {
  }

  lemma LoopStepKeepsQueue(s: State, step: Step, sid: nat)
    requires sid in s.sessions && !HandlerStep(step)
    ensures QueueKept(s, step, sid)
  {
  }

  lemma StepKeepsQueue(s: State, step: Step, sid: nat)
    requires sid in s.sessions
    ensures QueueKept(s, step, sid)
  {
    if HandlerStep(step) { HandlerStepKeepsQueue(s, step, sid); } else { LoopStepKeepsQueue(s, step, sid); }
  }

  /** In every interleaving what the loop takes is what was queued and put, in that order, nothing lost or doubled. */
  lemma {:induction false} FirstInFirstOut(s: State, steps: seq<Step>, sid: nat)
    requires sid in s.sessions
    ensures sid in Run(s, steps).sessions
    ensures s.sessions[sid].queue + Puts(s, steps, sid) == Takes(s, steps, sid) + Run(s, steps).sessions[sid].queue
    decreases |steps|
  {
    if steps != [] {
      var t := Next(s, steps[0]);
      StepKeepsQueue(s, steps[0], sid);
      FirstInFirstOut(t, steps[1..], sid);
      QueuesChain(s.sessions[sid].queue, PutBy(s, steps[0], sid), TakenBy(s, steps[0], sid), t.sessions[sid].queue,
                  Puts(t, steps[1..], sid), Takes(t, steps[1..], sid), Run(s, steps).sessions[sid].queue);
    }
  }

  // ----- every waiting request is on its way -----

  /** While the session's loop is not ending, a waiting request's proposal is queued, or the loop is paused on it. */
  ghost predicate WaitersProposed(s: State, sid: nat) {
    sid in s.sessions && (s.sessions[sid].phase.Opening? || Looping(s.sessions[sid].phase)) ==>
      forall rid :: rid in s.handlers && s.handlers[rid].session == Some(sid)
                    && s.handlers[rid].phase == Waiting && s.handlers[rid].future == Pending ==>
        OnItsWay(s.sessions[sid], s.handlers[rid].callId)
  }

  ghost predicate OnItsWay(session: Session, callId: string) {
    McpProposal(callId) in session.queue || session.phase == Paused(callId, true)
  }

  lemma QueueStepKeepsProposed(s: State, step: Step, sid: nat)
    requires WaitersProposed(s, sid) && (step.SseItem? || step.TakeItem? || step.Enqueue?)
    ensures WaitersProposed(Next(s, step), sid)
  {
    if sid in s.sessions && s.sessions[sid].queue != [] {
      var q := s.sessions[sid].queue;
      assert q == [q[0]] + q[1..];
    }
  }

  lemma AsendKeepsProposed(s: State, step: Step, sid: nat)
    requires WaitersProposed(s, sid) && PendingIsHeld(s, iset{sid}) && step.Asend?
    ensures WaitersProposed(Next(s, step), sid)
  {
  }

  lemma OtherStepKeepsProposed(s: State, step: Step, sid: nat)
    requires WaitersProposed(s, sid) && ClosedResolved(s, iset{})
    requires !step.SseItem? && !step.TakeItem? && !step.Enqueue? && !step.Asend?
    ensures WaitersProposed(Next(s, step), sid)
  {
  }

  lemma {:induction false} EveryWaiterIsProposed(s: State, steps: seq<Step>, sid: nat)
    requires Tidy(s, iset{sid}) && FreshCalls(s, steps, iset{sid}) && WaitersProposed(s, sid)
    ensures WaitersProposed(Run(s, steps), sid)
    decreases |steps|
  {
    if steps != [] {
      var step := steps[0];
      if step.SseItem? || step.TakeItem? || step.Enqueue? {
        QueueStepKeepsProposed(s, step, sid);
      } else if step.Asend? {
        AsendKeepsProposed(s, step, sid);
      } else {
        OtherStepKeepsProposed(s, step, sid);
      }
      StepKeepsTidy(s, step, iset{sid});
      EveryWaiterIsProposed(Next(s, step), steps[1..], sid);
    }
  }

  // ----- served in its turn -----

  /** The loop takes one item and the caller lets it go on. */
  function ServeOne(sid: nat, item: Item, content: string): seq<Step> {
    match item
    case McpProposal(callId) => [TakeItem(sid), Asend(sid, Some(ToolResult(callId, content, false)), false)]
    case BuiltInProposal(id) => [TakeItem(sid), Asend(sid, Some(ToolResult(id, content, false)), false)]
    case PlainEvent(_) => [TakeItem(sid), EventResumed(sid)]
  }

  function Serve(sid: nat, items: seq<Item>, content: string): seq<Step> {
    if items == [] then [] else ServeOne(sid, items[0], content) + Serve(sid, items[1..], content)
  }

  lemma {:induction false} RunSplits(s: State, steps: seq<Step>, more: seq<Step>)
    ensures Run(s, steps + more) == Run(Run(s, steps), more)
    decreases |steps|
  {
    if steps == [] {
      assert steps + more == more;
    } else {
      assert (steps + more)[1..] == steps[1..] + more;
      RunSplits(Next(s, steps[0]), steps[1..], more);
    }
  }

  /** Serving an item that is not the request's own proposal, and not terminal, brings the queue one item on. */
  lemma ServingOther(s: State, sid: nat, rid: nat, content: string)
    requires Awaits(s, sid, rid) && InPhase(s, sid, Draining) && s.sessions[sid].queue != []
    requires TablesHonest(s)
    requires s.sessions[sid].queue[0] !in {McpProposal(s.handlers[rid].callId), PlainEvent(true)}
    ensures var steps := ServeOne(sid, s.sessions[sid].queue[0], content);
            var t := Next(Next(s, steps[0]), steps[1]);
            && |steps| == 2 && Run(s, steps) == t
            && Awaits(t, sid, rid) && t.handlers[rid] == s.handlers[rid] && t.responses == s.responses
            && InPhase(t, sid, Draining) && t.sessions[sid].queue == s.sessions[sid].queue[1..] && TablesHonest(t)
  {
    var item := s.sessions[sid].queue[0];
    var steps := ServeOne(sid, item, content);
    var taken := Next(s, steps[0]);
    RunTwo(s, taken, Next(taken, steps[1]), steps);
    LoopStepKeepsTables(s, steps[0]);
    LoopStepKeepsTables(taken, steps[1]);
    match item
    case McpProposal(callId) => ServingOtherProposal(s, sid, rid, callId, content);
    case BuiltInProposal(id) => BuiltInTouchesNoFuture(s, sid, ToolResult(id, content, false), false);
    case PlainEvent(terminal) => EventPassesThrough(s, sid, terminal);
  }

  lemma ServingOtherProposal(s: State, sid: nat, rid: nat, callId: string, content: string)
    requires Awaits(s, sid, rid) && HeadIs(s, sid, McpProposal(callId)) && callId != s.handlers[rid].callId
    requires TablesHonest(s)
    ensures var t := Next(Next(s, TakeItem(sid)), Asend(sid, Some(ToolResult(callId, content, false)), false));
            && Awaits(t, sid, rid) && t.handlers[rid] == s.handlers[rid] && t.responses == s.responses
            && InPhase(t, sid, Draining) && t.sessions[sid].queue == s.sessions[sid].queue[1..]
  {
    TakingProposes(s, sid, callId);
    var taken := Next(s, TakeItem(sid));
    assert callId in taken.sessions[sid].pending ==> taken.sessions[sid].pending[callId] != rid;
  }

  lemma SlicesShift(queue: seq<Item>, k: nat)
    requires 0 < k <= |queue|
    ensures queue[..k][1..] == queue[1..][..k - 1] && queue[1..][k - 1..] == queue[k..] && queue[..k][0] == queue[0]
  {
  }

  /** A proposal anywhere in the queue becomes its head once everything before it is served. */
  lemma {:induction false} ReachedInTurn(s: State, sid: nat, rid: nat, k: nat, content: string)
    requires Awaits(s, sid, rid) && InPhase(s, sid, Draining) && TablesHonest(s) && k <= |s.sessions[sid].queue|
    requires forall i :: 0 <= i < k ==>
               s.sessions[sid].queue[i] !in {McpProposal(s.handlers[rid].callId), PlainEvent(true)}
    ensures var t := Run(s, Serve(sid, s.sessions[sid].queue[..k], content));
            && Awaits(t, sid, rid) && t.handlers[rid] == s.handlers[rid] && t.responses == s.responses
            && InPhase(t, sid, Draining) && t.sessions[sid].queue == s.sessions[sid].queue[k..]
    decreases k
  {
    if k > 0 {
      var queue := s.sessions[sid].queue;
      var steps := ServeOne(sid, queue[0], content);
      var t := Run(s, steps);
      ServingOther(s, sid, rid, content);
      SlicesShift(queue, k);
      ReachedInTurn(t, sid, rid, k - 1, content);
      RunSplits(s, steps, Serve(sid, queue[..k][1..], content));
    }
  }

  /** The caller's answer to the proposal at the head of the queue, and the response it leads to. */
  function AnswerHead(sid: nat, rid: nat, result: ToolResult): seq<Step> {
    [TakeItem(sid), Asend(sid, Some(result), false), Respond(rid)]
  }

  /** The first proposal of the call in the queue. */
  lemma {:induction false} FirstProposal(queue: seq<Item>, callId: string) returns (k: nat)
    requires McpProposal(callId) in queue
    ensures k < |queue| && queue[k] == McpProposal(callId) && McpProposal(callId) !in queue[..k]
  {
    if queue[0] == McpProposal(callId) {
      k := 0;
    } else {
      assert queue == [queue[0]] + queue[1..];
      k := FirstProposal(queue[1..], callId);
      k := k + 1;
      assert queue[..k] == [queue[0]] + queue[1..][..k - 1];
    }
  }

  /**
   * In every reachable state in which a session's loop is draining, a request that waits has its proposal in the queue;
   * unless a terminal event comes first, serving the queue up to it and answering it sends the request that answer.
   */
  lemma EveryWaiterCanBeAnswered(steps: seq<Step>, sid: nat, rid: nat, result: ToolResult, content: string)
    returns (k: nat)
    requires FreshCalls(Initial, steps, iset{sid})
    requires var s := Run(Initial, steps);
             && InPhase(s, sid, Draining) && rid in s.handlers && s.handlers[rid].session == Some(sid)
             && s.handlers[rid].phase == Waiting && s.handlers[rid].future == Pending
             && s.handlers[rid].callId == result.toolUseId
    ensures var s := Run(Initial, steps); var queue := s.sessions[sid].queue;
            && k < |queue| && queue[k] == McpProposal(result.toolUseId)
            && (PlainEvent(true) !in queue[..k] ==>
                  Run(s, Serve(sid, queue[..k], content) + AnswerHead(sid, rid, result)).responses
                    == s.responses + [(rid, Answer(result))])
  {
    var s := Run(Initial, steps);
    EveryRunIsTidy(Initial, steps, iset{sid});
    EveryWaiterIsProposed(Initial, steps, sid);
    var queue := s.sessions[sid].queue;
    assert OnItsWay(s.sessions[sid], s.handlers[rid].callId);
    k := FirstProposal(queue, result.toolUseId);
    if PlainEvent(true) !in queue[..k] {
      assert forall i :: 0 <= i < k ==> queue[i] in queue[..k];
      assert Awaits(s, sid, rid);
      ReachedInTurn(s, sid, rid, k, content);
      var t := Run(s, Serve(sid, queue[..k], content));
      RunSplits(s, Serve(sid, queue[..k], content), AnswerHead(sid, rid, result));
      AnswersHead(t, sid, rid, result);
    }
  }

  lemma AnswersHead(s: State, sid: nat, rid: nat, result: ToolResult)
    requires Awaits(s, sid, rid) && s.handlers[rid].callId == result.toolUseId
    requires HeadIs(s, sid, McpProposal(result.toolUseId))
    ensures Run(s, AnswerHead(sid, rid, result)).responses == s.responses + [(rid, Answer(result))]
  {
    var steps := AnswerHead(sid, rid, result);
    var taken := Next(s, steps[0]);
    var sent := Next(taken, steps[1]);
    ProposalIsAnswered(s, sid, rid, result, false);
    RunThree(s, taken, sent, Next(sent, steps[2]), steps);
  }

  // ----- whatever happens in between -----

  /** Steps that end the wait of the request or move the loop of its session, and shutdown. */
  predicate Interferes(step: Step, sid: nat, rid: nat) {
    EndsWait(step, rid) || step == Shutdown || (step.Asend? && step.sid == sid) || step == Stop(sid)
  }

  lemma HandlerStepLeavesAwaited(s: State, step: Step, sid: nat, rid: nat, callId: string)
    requires Awaits(s, sid, rid) && InPhase(s, sid, Paused(callId, true))
    requires HandlerStep(step) && !Interferes(step, sid, rid)
    ensures var t := Next(s, step);
            && InPhase(t, sid, Paused(callId, true)) && rid in t.handlers && t.handlers[rid] == s.handlers[rid]
  {
  }

  lemma LoopStepLeavesAwaited(s: State, step: Step, sid: nat, rid: nat, callId: string)
    requires Awaits(s, sid, rid) && InPhase(s, sid, Paused(callId, true)) && TablesHonest(s)
    requires !HandlerStep(step) && !Interferes(step, sid, rid)
    ensures var t := Next(s, step);
            && InPhase(t, sid, Paused(callId, true)) && rid in t.handlers && t.handlers[rid] == s.handlers[rid]
  {
  }

  /** Other requests, events, sessions and callers leave a proposal that is out with the caller as it is. */
  lemma {:induction false} AwaitedStays(s: State, steps: seq<Step>, sid: nat, rid: nat, callId: string)
    requires Tidy(s, iset{sid}) && FreshCalls(s, steps, iset{sid})
    requires Awaits(s, sid, rid) && InPhase(s, sid, Paused(callId, true))
    requires forall i :: 0 <= i < |steps| ==> !Interferes(steps[i], sid, rid)
    ensures var t := Run(s, steps);
            Awaits(t, sid, rid) && InPhase(t, sid, Paused(callId, true)) && t.handlers[rid] == s.handlers[rid]
    decreases |steps|
  {
    if steps != [] {
      var step := steps[0];
      if HandlerStep(step) {
        HandlerStepLeavesAwaited(s, step, sid, rid, callId);
      } else {
        LoopStepLeavesAwaited(s, step, sid, rid, callId);
      }
      StepKeepsTidy(s, step, iset{sid});
      AwaitedStays(Next(s, step), steps[1..], sid, rid, callId);
    }
  }

  /** So however long the caller takes and whatever happens meanwhile, its result is what the request answers with. */
  lemma ResultArrivesThroughInterleaving(
    s: State, steps: seq<Step>, sid: nat, rid: nat, result: ToolResult, fails: bool)
    requires Tidy(s, iset{sid}) && FreshCalls(s, steps, iset{sid})
    requires Awaits(s, sid, rid) && s.handlers[rid].callId == result.toolUseId
    requires InPhase(s, sid, Paused(result.toolUseId, true))
    requires forall i :: 0 <= i < |steps| ==> !Interferes(steps[i], sid, rid)
    ensures var t := Next(Run(s, steps), Asend(sid, Some(result), fails));
            && rid in t.handlers && t.handlers[rid].future == Resolved(result)
            && Next(t, Respond(rid)).responses == t.responses + [(rid, Answer(result))]
  {
    AwaitedStays(s, steps, sid, rid, result.toolUseId);
    RightResultResolves(Run(s, steps), sid, rid, result, fails);
    ResolvedResponds(Next(Run(s, steps), Asend(sid, Some(result), fails)), rid, result);
  }
}
