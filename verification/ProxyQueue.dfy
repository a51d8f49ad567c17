/**
 * The Claude SDK proxy tools: concurrent calls that all wait on one shared result queue, putting back what is not
 * theirs. Steps are atomic between `await` points; any sequence of steps is an interleaving.
 */
module ProxyQueue {
  import opened Queues
  import opened Kernel

  /** A proxy call: about to put its proposal, waiting for a result, holding another call's result, or done. */
  datatype Proxy = Proposing | Waiting | Holding(other: ToolResult) | Delivered(result: ToolResult) | TimedOut

  datatype Item = Proposal(toolUseId: string) | OtherEvent | Sentinel

  datatype Loop = Draining | AwaitingResult | Ended

  datatype State = State(
    proxies: map<string, Proxy>,
    events: seq<Item>,
    results: seq<ToolResult>,
    loop: Loop,
    accepted: multiset<ToolResult>)  // every result the caller has sent in

  datatype Step =
    | Call(id: string)
    | PutProposal(id: string)
    | PutEvent(item: Item)
    | TakeEvent
    | Send(result: ToolResult)
    | EndLoop
    | GetResult(id: string)
    | PutBack(id: string)
    | Timeout(id: string)

  const Initial := State(map[], [], [], Draining, multiset{})

  predicate IsAt(s: State, id: string, proxy: Proxy) {
    id in s.proxies && s.proxies[id] == proxy
  }

  predicate Enabled(s: State, step: Step) {
    match step
    case Call(id) => id !in s.proxies
    case PutProposal(id) => IsAt(s, id, Proposing)
    case PutEvent(item) => !item.Proposal?
    case TakeEvent => s.loop == Draining && s.events != []
    case Send(_) => s.loop == AwaitingResult
    case EndLoop => s.loop != Ended
    case GetResult(id) => IsAt(s, id, Waiting) && s.results != []
    case PutBack(id) => id in s.proxies && s.proxies[id].Holding?
    case Timeout(id) => IsAt(s, id, Waiting)
  }

  function Next(s: State, step: Step): State {
    if !Enabled(s, step) then s
    else
      match step
      case Call(id) => s.(proxies := s.proxies[id := Proposing])
      case PutProposal(id) => s.(proxies := s.proxies[id := Waiting], events := s.events + [Proposal(id)])
      case PutEvent(item) => s.(events := s.events + [item])
      case TakeEvent =>
        s.(events := s.events[1..],
           loop := match s.events[0]
                   case Proposal(_) => AwaitingResult
                   case OtherEvent => Draining
                   case Sentinel => Ended)
      case Send(result) =>
        s.(results := s.results + [result], accepted := s.accepted + multiset{result}, loop := Draining)
      case EndLoop => s.(loop := Ended)
      case GetResult(id) =>
        var result := s.results[0];
        s.(results := s.results[1..],
           proxies := s.proxies[id := if result.toolUseId == id then Delivered(result) else Holding(result)])
      case PutBack(id) =>
        s.(results := s.results + [s.proxies[id].other], proxies := s.proxies[id := Waiting])
      case Timeout(id) => s.(proxies := s.proxies[id := TimedOut])
  }

  function Run(s: State, steps: seq<Step>): State
    decreases |steps|
  {
    if steps == [] then s else Run(Next(s, steps[0]), steps[1..])
  }

  /** The calls that were handed `r`. */
  function DeliveredTo(s: State, r: ToolResult): set<string> {
    set id | id in s.proxies && s.proxies[id] == Delivered(r)
  }

  /** The calls that hold `r` for somebody else. */
  function HeldBy(s: State, r: ToolResult): set<string> {
    set id | id in s.proxies && s.proxies[id] == Holding(r)
  }

  /** How often `r` is still on its way: queued, or held before being put back. */
  function InCirculation(s: State, r: ToolResult): nat {
    multiset(s.results)[r] + |HeldBy(s, r)|
  }

  /** Every accepted result is delivered, queued or held, as many times as it was accepted. */
  ghost predicate Conserved(s: State) {
    forall r :: ConservedFor(s, r)
  }

  ghost predicate ConservedFor(s: State, r: ToolResult) {
    s.accepted[r] == |DeliveredTo(s, r)| + InCirculation(s, r)
  }

  /** A call is handed only its own result, and holds only other calls' results. */
  ghost predicate OwnResultsOnly(s: State) {
    forall id :: id in s.proxies ==>
      && (s.proxies[id].Delivered? ==> s.proxies[id].result.toolUseId == id)
      && (s.proxies[id].Holding? ==> s.proxies[id].other.toolUseId != id)
  }

  /** Only one proxy changes: the sets of the others' calls stay as they are. */
  lemma OneProxyMoves(s: State, id: string, now: Proxy, r: ToolResult)
    requires id in s.proxies
    ensures var t := s.(proxies := s.proxies[id := now]);
            && DeliveredTo(t, r) == DeliveredTo(s, r) - {id} + (if now == Delivered(r) then {id} else {})
            && HeldBy(t, r) == HeldBy(s, r) - {id} + (if now == Holding(r) then {id} else {})
  {
  }

  lemma HeadCounts(results: seq<ToolResult>, r: ToolResult)
    requires results != []
    ensures multiset(results)[r] == multiset(results[1..])[r] + if results[0] == r then 1 else 0
  {
    assert results == [results[0]] + results[1..];
  }

  lemma SameProxiesSameSets(s: State, t: State, r: ToolResult)
    requires s.proxies == t.proxies
    ensures DeliveredTo(t, r) == DeliveredTo(s, r) && HeldBy(t, r) == HeldBy(s, r)
  {
  }

  lemma GetResultConserves(s: State, id: string, r: ToolResult)
    requires ConservedFor(s, r) && Enabled(s, GetResult(id))
    ensures ConservedFor(Next(s, GetResult(id)), r)
  {
    var head, rest := s.results[0], s.results[1..];
    var now := if head.toolUseId == id then Delivered(head) else Holding(head);
    var t := s.(proxies := s.proxies[id := now]);
    OneProxyMoves(s, id, now, r);
    HeadCounts(s.results, r);
    assert id !in DeliveredTo(s, r) && id !in HeldBy(s, r);
    assert |DeliveredTo(t, r)| + |HeldBy(t, r)| == |DeliveredTo(s, r)| + |HeldBy(s, r)| + if head == r then 1 else 0;
    SameProxiesSameSets(t, Next(s, GetResult(id)), r);
  }

  lemma PutBackConserves(s: State, id: string, r: ToolResult)
    requires ConservedFor(s, r) && Enabled(s, PutBack(id))
    ensures ConservedFor(Next(s, PutBack(id)), r)
  {
    var t := s.(proxies := s.proxies[id := Waiting]);
    OneProxyMoves(s, id, Waiting, r);
    assert id !in DeliveredTo(s, r) && (id in HeldBy(s, r) <==> s.proxies[id].other == r);
    assert DeliveredTo(Next(s, PutBack(id)), r) == DeliveredTo(t, r) && HeldBy(Next(s, PutBack(id)), r) == HeldBy(t, r);
  }

  lemma OtherStepConserves(s: State, step: Step, r: ToolResult)
    requires ConservedFor(s, r) && !step.GetResult? && !step.PutBack?
    ensures ConservedFor(Next(s, step), r)
  {
    var t := Next(s, step);
    assert DeliveredTo(t, r) == DeliveredTo(s, r) && HeldBy(t, r) == HeldBy(s, r);
  }

  lemma StepConserves(s: State, step: Step)
    requires Conserved(s)
    ensures Conserved(Next(s, step))
  {
    forall r ensures ConservedFor(Next(s, step), r) {
      assert ConservedFor(s, r);
      if !step.GetResult? && !step.PutBack? {
        OtherStepConserves(s, step, r);
      } else if Enabled(s, step) {
        if step.GetResult? { GetResultConserves(s, step.id, r); } else { PutBackConserves(s, step.id, r); }
      }
    }
  }

  lemma StepKeepsOwnResults(s: State, step: Step)
    requires OwnResultsOnly(s)
    ensures OwnResultsOnly(Next(s, step))
  {
  }

  /** In every interleaving results are conserved and nobody is handed another call's result, even after timeouts. */
  lemma {:induction false} EveryRunConserves(s: State, steps: seq<Step>)
    requires Conserved(s) && OwnResultsOnly(s)
    ensures Conserved(Run(s, steps)) && OwnResultsOnly(Run(s, steps))
    decreases |steps|
  {
    if steps != [] {
      var t := Next(s, steps[0]);
      StepConserves(s, steps[0]);
      StepKeepsOwnResults(s, steps[0]);
      EveryRunConserves(t, steps[1..]);
    }
  }

  lemma InitialConserves()
    ensures Conserved(Initial) && OwnResultsOnly(Initial)
  {
    forall r ensures ConservedFor(Initial, r) {
      assert DeliveredTo(Initial, r) == {} && HeldBy(Initial, r) == {};
    }
  }

  /** The whole history of a fresh session: what was accepted is what was delivered plus what still circulates. */
  lemma AcceptedIsDeliveredPlusCirculating(steps: seq<Step>, r: ToolResult, id: string)
    ensures var s := Run(Initial, steps);
            && s.accepted[r] == |DeliveredTo(s, r)| + multiset(s.results)[r] + |HeldBy(s, r)|
            && (id in s.proxies && s.proxies[id].Delivered? ==> s.proxies[id].result.toolUseId == id)
  {
    InitialConserves();
    EveryRunConserves(Initial, steps);
    assert ConservedFor(Run(Initial, steps), r);
  }

  lemma {:induction false} AcceptedGrowsAndTimeoutsStay(s: State, steps: seq<Step>, r: ToolResult, id: string)
    requires IsAt(s, id, TimedOut)
    ensures Run(s, steps).accepted[r] >= s.accepted[r] && IsAt(Run(s, steps), id, TimedOut)
    decreases |steps|
  {
    if steps != [] {
      AcceptedGrowsAndTimeoutsStay(Next(s, steps[0]), steps[1..], r, id);
    }
  }

  /** A result for a call that has timed out is never delivered: it stays in circulation for good. */
  lemma LateResultCirculatesForever(s: State, steps: seq<Step>, r: ToolResult)
    requires Conserved(s) && OwnResultsOnly(s) && IsAt(s, r.toolUseId, TimedOut)
    ensures InCirculation(Run(s, steps), r) >= InCirculation(s, r)
    ensures InCirculation(Run(s, steps), r) == Run(s, steps).accepted[r]
  {
    var t := Run(s, steps);
    EveryRunConserves(s, steps);
    AcceptedGrowsAndTimeoutsStay(s, steps, r, r.toolUseId);
    assert ConservedFor(s, r) && ConservedFor(t, r);
    assert DeliveredTo(s, r) == {} && DeliveredTo(t, r) == {};
  }

  // ----- proposals and what the caller sends for them -----

  function Proposals(events: seq<Item>): nat {
    if events == [] then 0 else (if events[0].Proposal? then 1 else 0) + Proposals(events[1..])
  }

  lemma {:induction false} ProposalsOfAppend(events: seq<Item>, item: Item)
    ensures Proposals(events + [item]) == Proposals(events) + if item.Proposal? then 1 else 0
  {
    if events != [] {
      assert (events + [item])[1..] == events[1..] + [item];
      ProposalsOfAppend(events[1..], item);
    } else {
      assert [item][1..] == [] && events + [item] == [item];
    }
  }

  /** The calls that have put their proposal. */
  function Asked(s: State): set<string> {
    set id | id in s.proxies && s.proxies[id] != Proposing
  }

  /** Proposals whose result the caller owes. */
  function Owed(s: State): nat {
    Proposals(s.events) + if s.loop == AwaitingResult then 1 else 0
  }

  /**
   * One proposal per call, one result per proposal: what was accepted and what is owed adds up to the calls that
   * asked.
   */
  ghost predicate Balanced(s: State) {
    && |s.accepted| + Owed(s) <= |Asked(s)|
    && (s.loop != Ended ==> |s.accepted| + Owed(s) == |Asked(s)|)
    && forall id :: multiset(s.events)[Proposal(id)] <= if id in Asked(s) then 1 else 0
  }

  lemma PutKeepsBalance(s: State, step: Step)
    requires Balanced(s) && (step.PutProposal? || step.PutEvent?) && Enabled(s, step)
    ensures Balanced(Next(s, step))
  {
    var t := Next(s, step);
    if step.PutProposal? {
      ProposalsOfAppend(s.events, Proposal(step.id));
      assert step.id !in Asked(s) && Asked(t) == Asked(s) + {step.id};
    } else {
      ProposalsOfAppend(s.events, step.item);
      assert Asked(t) == Asked(s);
    }
  }

  lemma TakeKeepsBalance(s: State)
    requires Balanced(s) && Enabled(s, TakeEvent)
    ensures Balanced(Next(s, TakeEvent))
  {
    assert s.events == [s.events[0]] + s.events[1..];
    assert Asked(Next(s, TakeEvent)) == Asked(s);
  }

  lemma OtherKeepsBalance(s: State, step: Step)
    requires Balanced(s) && !step.PutProposal? && !step.PutEvent? && !step.TakeEvent?
    ensures Balanced(Next(s, step))
  {
    assert Asked(Next(s, step)) == Asked(s);
  }

  lemma {:induction false} EveryRunIsBalanced(s: State, steps: seq<Step>)
    requires Balanced(s)
    ensures Balanced(Run(s, steps))
    decreases |steps|
  {
    if steps != [] {
      var step := steps[0];
      if Enabled(s, step) && (step.PutProposal? || step.PutEvent?) {
        PutKeepsBalance(s, step);
      } else if Enabled(s, step) && step.TakeEvent? {
        TakeKeepsBalance(s);
      } else if Enabled(s, step) {
        OtherKeepsBalance(s, step);
      }
      EveryRunIsBalanced(Next(s, step), steps[1..]);
    }
  }

  /** In every interleaving the loop accepts one result per proposal it takes, and a call is proposed at most once. */
  lemma OneResultPerProposal(steps: seq<Step>, id: string)
    ensures var s := Run(Initial, steps);
            && |s.accepted| + Owed(s) <= |Asked(s)|
            && (s.loop != Ended ==> |s.accepted| + Owed(s) == |Asked(s)|)
            && multiset(s.events)[Proposal(id)] <= if id in Asked(s) then 1 else 0
  {
    assert Asked(Initial) == {};
    EveryRunIsBalanced(Initial, steps);
  }

  // ----- first in, first out -----

  function EventsPutBy(s: State, step: Step): seq<Item> {
    match step
    case PutProposal(id) => if id in s.proxies && s.proxies[id] == Proposing then [Proposal(id)] else []
    case PutEvent(item) => if item.Proposal? then [] else [item]
    case _ => []
  }

  function ResultsPutBy(s: State, step: Step): seq<ToolResult> {
    match step
    case Send(result) => if s.loop == AwaitingResult then [result] else []
    case PutBack(id) => if id in s.proxies && s.proxies[id].Holding? then [s.proxies[id].other] else []
    case _ => []
  }

  function EventsTakenBy(s: State, step: Step): seq<Item> {
    if step.TakeEvent? && s.loop == Draining && s.events != [] then [s.events[0]] else []
  }

  function ResultsTakenBy(s: State, step: Step): seq<ToolResult> {
    if step.GetResult? && step.id in s.proxies && s.proxies[step.id] == Waiting && s.results != []
    then [s.results[0]] else []
  }

  /** What a run puts on and takes off the two queues. */
  datatype Traffic = Traffic(
    eventsIn: seq<Item>, eventsOut: seq<Item>, resultsIn: seq<ToolResult>, resultsOut: seq<ToolResult>)

  function TrafficOf(s: State, steps: seq<Step>): Traffic
    decreases |steps|
  {
    if steps == [] then Traffic([], [], [], [])
    else
      var rest := TrafficOf(Next(s, steps[0]), steps[1..]);
      Traffic(EventsPutBy(s, steps[0]) + rest.eventsIn, EventsTakenBy(s, steps[0]) + rest.eventsOut,
              ResultsPutBy(s, steps[0]) + rest.resultsIn, ResultsTakenBy(s, steps[0]) + rest.resultsOut)
  }

  lemma StepKeepsQueues(s: State, step: Step)
    ensures s.events + EventsPutBy(s, step) == EventsTakenBy(s, step) + Next(s, step).events
    ensures s.results + ResultsPutBy(s, step) == ResultsTakenBy(s, step) + Next(s, step).results
  {
  }

  /** In every interleaving both queues give out what was put in, in that order; a result put back goes to the end. */
  lemma {:induction false} FirstInFirstOut(s: State, steps: seq<Step>)
    ensures var traffic, t := TrafficOf(s, steps), Run(s, steps);
            && s.events + traffic.eventsIn == traffic.eventsOut + t.events
            && s.results + traffic.resultsIn == traffic.resultsOut + t.results
    decreases |steps|
  {
    if steps != [] {
      var step := steps[0];
      var t, rest, last := Next(s, step), TrafficOf(Next(s, step), steps[1..]), Run(s, steps);
      StepKeepsQueues(s, step);
      FirstInFirstOut(t, steps[1..]);
      QueuesChain(s.events, EventsPutBy(s, step), EventsTakenBy(s, step), t.events,
                  rest.eventsIn, rest.eventsOut, last.events);
      QueuesChain(s.results, ResultsPutBy(s, step), ResultsTakenBy(s, step), t.results,
                  rest.resultsIn, rest.resultsOut, last.results);
    }
  }

  /** The loop waits for a result after a proposal only, and ends at the sentinel only. */
  lemma TakingDecides(s: State)
    requires s.loop == Draining && s.events != []
    ensures var t := Next(s, TakeEvent);
            && (t.loop == AwaitingResult <==> s.events[0].Proposal?) && (t.loop == Ended <==> s.events[0] == Sentinel)
            && t.proxies == s.proxies && t.results == s.results && t.accepted == s.accepted
  {
  }

  /** What the caller sends for a proposal is accepted as it is, and the loop goes on. */
  lemma SendingAccepts(s: State, result: ToolResult)
    requires s.loop == AwaitingResult
    ensures var t := Next(s, Send(result));
            && t.results == s.results + [result] && t.accepted == s.accepted + multiset{result}
            && t.loop == Draining && t.events == s.events && t.proxies == s.proxies
  {
  }

  /** The loop may end at any time, and stays ended. */
  lemma EndedStays(s: State, step: Step)
    ensures Next(s, EndLoop).loop == Ended && (s.loop == Ended ==> Next(s, step).loop == Ended)
    ensures s.loop == Ended ==> Next(s, step).accepted == s.accepted
  {
  }

  // ----- a call finds its own result -----

  /** One call gets a result that is not its own and puts it back, `k` times. */
  function PassOn(id: string, k: nat): seq<Step> {
    if k == 0 then [] else [GetResult(id), PutBack(id)] + PassOn(id, k - 1)
  }

  lemma {:induction false} RunSplits(s: State, steps: seq<Step>, more: seq<Step>)
    ensures Run(s, steps + more) == Run(Run(s, steps), more)
    decreases |steps|
  {
    if steps == [] {
      assert steps + more == more;
    } else {
      assert (steps + more)[1..] == steps[1..] + more;
      RunSplits(Next(s, steps[0]), steps[1..], more);
    }
  }

  lemma PassOnOnce(s: State, id: string)
    requires IsAt(s, id, Waiting) && s.results != [] && s.results[0].toolUseId != id
    ensures Run(s, [GetResult(id), PutBack(id)]) == s.(results := s.results[1..] + [s.results[0]])
  {
    var got := Next(s, GetResult(id));
    assert IsAt(got, id, Holding(s.results[0]));
    var back := Next(got, PutBack(id));
    assert back.proxies == s.proxies;
    assert Run(got, [PutBack(id)]) == Run(back, []) == back by { assert [PutBack(id)][1..] == []; }
    assert [GetResult(id), PutBack(id)][1..] == [PutBack(id)];
  }

  lemma {:induction false} PassingOnRotates(s: State, id: string, k: nat)
    requires IsAt(s, id, Waiting) && k <= |s.results|
    requires forall i :: 0 <= i < k ==> s.results[i].toolUseId != id
    ensures Run(s, PassOn(id, k)) == s.(results := s.results[k..] + s.results[..k])
    decreases k
  {
    if k > 0 {
      var t := s.(results := s.results[1..] + [s.results[0]]);
      PassOnOnce(s, id);
      RunSplits(s, [GetResult(id), PutBack(id)], PassOn(id, k - 1));
      PassingOnRotates(t, id, k - 1);
      assert t.results[k - 1..] + t.results[..k - 1] == s.results[k..] + s.results[..k];
    } else {
      assert s.results[0..] + s.results[..0] == s.results;
    }
  }

  /** A waiting call whose result is anywhere in the queue reaches it by passing on the ones before it, in order. */
  lemma OwnResultIsFound(s: State, id: string, k: nat)
    requires IsAt(s, id, Waiting) && k < |s.results| && s.results[k].toolUseId == id
    requires forall i :: 0 <= i < k ==> s.results[i].toolUseId != id
    ensures Run(s, PassOn(id, k) + [GetResult(id)]) ==
              s.(results := s.results[k + 1..] + s.results[..k], proxies := s.proxies[id := Delivered(s.results[k])])
  {
    var t := s.(results := s.results[k..] + s.results[..k]);
    PassingOnRotates(s, id, k);
    RunSplits(s, PassOn(id, k), [GetResult(id)]);
    assert t.results[1..] == s.results[k + 1..] + s.results[..k];
    assert [GetResult(id)][1..] == [];
    assert Run(t, [GetResult(id)]) == Run(Next(t, GetResult(id)), []);
  }

  /** A call proposes under its own id, waits from then on, and its timeout ends that wait for good. */
  lemma CallProposesThenWaits(s: State, id: string)
    requires id !in s.proxies
    ensures var called := Next(s, Call(id)); var waiting := Next(called, PutProposal(id));
            && IsAt(waiting, id, Waiting) && waiting.events == s.events + [Proposal(id)]
            && IsAt(Next(waiting, Timeout(id)), id, TimedOut) && waiting.results == s.results
  {
  }
}
