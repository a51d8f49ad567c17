/** What every run of pipeline calls keeps, and how its log reads back. */
module PipelineLaws {
  import opened Common
  import opened Strings
  import opened Pipeline

  // ----- every call, overrides included -----

  /** At most one stage is active and it is the current one; the current stage is active or blocked. */
  ghost predicate Coherent(s: PipelineState) {
    && UniqueStages(s.stages)
    && (forall i, j :: 0 <= i < j < |s.stages| ==> !(s.stages[i].status == Active && s.stages[j].status == Active))
    && (forall i :: 0 <= i < |s.stages| && s.stages[i].status == Active ==>
          s.currentStageId == Some(s.stages[i].stageId))
    && (s.currentStageId.Some? ==>
          exists i :: 0 <= i < |s.stages| && s.stages[i].stageId == s.currentStageId.value
                      && s.stages[i].status in {Active, Blocked})
  }

  lemma StartKeepsCoherence(s: PipelineState, stageId: string, now: string)
    requires Coherent(s)
    ensures Coherent(Start(s, stageId, now).state)
  {
    var after := Start(s, stageId, now);
    if after.error.None? {
      var i := StageIndex(s.stages, stageId);
      assert after.state.stages[i].status == Active;
    }
  }

  lemma CompletionKeepsCoherence(s: PipelineState, stageId: string, checks: Checks, now: string)
    requires Coherent(s)
    ensures Coherent(Completion(s, stageId, checks, now).state)
  {
    var i := StageIndex(s.stages, stageId);
    if i < |s.stages| && s.stages[i].status == Active {
      var after := Completion(s, stageId, checks, now).state;
      assert after.stages[i].status in {Blocked, Complete};
    }
  }

  lemma OverrideKeepsCoherence(s: PipelineState, stageId: string, reason: string, now: string)
    requires Coherent(s)
    ensures Coherent(Override(s, stageId, reason, now).state)
  {
    var i := StageIndex(s.stages, stageId);
    if i < |s.stages| && Strip(reason) != "" {
      var after := Override(s, stageId, reason, now).state;
      assert after.stages[i].status == Active;
    }
  }

  lemma CallKeepsCoherence(s: PipelineState, call: Call, now: string)
    requires Coherent(s)
    ensures Coherent(Apply(s, call, now).state)
  {
    match call
    case StartStage(stageId) => StartKeepsCoherence(s, stageId, now);
    case CompleteStage(stageId, checks) => CompletionKeepsCoherence(s, stageId, checks, now);
    case OverrideStage(stageId, reason) => OverrideKeepsCoherence(s, stageId, reason, now);
    case AdvancePipeline(checks) =>
      match s.currentStageId {
        case None =>
          var i := FirstNotStarted(s.stages);
          if i < |s.stages| { StartKeepsCoherence(s, s.stages[i].stageId, now); }
        case Some(current) =>
          var i := StageIndex(s.stages, current);
          if i < |s.stages| && s.stages[i].status == Active {
            CompletionKeepsCoherence(s, current, checks, now);
            var completed := Completion(s, current, checks, now);
            if completed.error.None? && i + 1 < |s.stages| {
              StartKeepsCoherence(completed.state, s.stages[i + 1].stageId, now);
            }
          }
      }
  }

  /** In every state any run reaches, whatever the gates say. */
  lemma {:induction false} RunIsCoherent(s: PipelineState, calls: Calls)
    requires Coherent(s)
    ensures Coherent(Run(s, calls))
  {
    if calls != [] {
      var front, last := calls[..|calls| - 1], calls[|calls| - 1];
      RunIsCoherent(s, front);
      CallKeepsCoherence(Run(s, front), last.0, last.1);
    }
  }

  lemma ScaffoldIsCoherent(s: PipelineState)
    requires Scaffolded(s)
    ensures Coherent(s)
  {
    if s.stages != [] { assert s.stages[0].status == Active; }
  }

  // ----- runs without an override -----

  /** `m` complete stages, then the current one if any, then stages not started. */
  ghost predicate Shape(s: PipelineState, m: nat) {
    && UniqueStages(s.stages)
    && m <= |s.stages|
    && (forall i :: 0 <= i < m ==> s.stages[i].status == Complete)
    && (forall i :: m < i < |s.stages| ==> s.stages[i].status == NotStarted)
    && (match s.currentStageId
        case None => m < |s.stages| ==> s.stages[m].status == NotStarted
        case Some(current) =>
          m < |s.stages| && s.stages[m].stageId == current && s.stages[m].status in {Active, Blocked})
  }

  lemma StageIndexIs(stages: seq<StageState>, i: nat)
    requires UniqueStages(stages) && i < |stages|
    ensures StageIndex(stages, stages[i].stageId) == i
  {
    var j := StageIndex(stages, stages[i].stageId);
  }

  lemma StartKeepsShape(s: PipelineState, m: nat, stageId: string, now: string)
    requires Shape(s, m)
    ensures Shape(Start(s, stageId, now).state, m)
    ensures m < |s.stages| && s.currentStageId.None? && stageId == s.stages[m].stageId ==>
              var after := Start(s, stageId, now);
              after.error.None? && after.state.currentStageId == Some(stageId) && after.state.stages[m].status == Active
  {
    if m < |s.stages| { StageIndexIs(s.stages, m); }
    var i := StageIndex(s.stages, stageId);
    if i < |s.stages| && i > m {
      assert s.stages[i - 1].status != Complete;
    }
  }

  lemma CompletionKeepsShape(s: PipelineState, m: nat, stageId: string, checks: Checks, now: string)
    requires Shape(s, m)
    ensures var after := Completion(s, stageId, checks, now);
            if after.error in {None, Some(ReflectionFailed)}
            then m < |s.stages| && Shape(after.state, m + 1) && after.state.currentStageId == None
            else Shape(after.state, m)
  {
    if m < |s.stages| { StageIndexIs(s.stages, m); }
    var i := StageIndex(s.stages, stageId);
    if i < |s.stages| && s.stages[i].status == Active {
      assert i == m;
    }
  }

  lemma AdvanceKeepsShape(s: PipelineState, m: nat, checks: Checks, now: string)
    requires Shape(s, m)
    ensures exists m' :: m <= m' <= m + 1 && Shape(Advance(s, checks, now).state, m')
  {
    match s.currentStageId
    case None =>
      FirstNotStartedIs(s, m);
      if m < |s.stages| {
        StartKeepsShape(s, m, s.stages[m].stageId, now);
      }
      assert Shape(Advance(s, checks, now).state, m);
    case Some(current) =>
      StageIndexIs(s.stages, m);
      if s.stages[m].status == Active {
        CompletionKeepsShape(s, m, current, checks, now);
        var completed := Completion(s, current, checks, now);
        if completed.error in {None, Some(ReflectionFailed)} {
          if m + 1 < |s.stages| {
            StartKeepsShape(completed.state, m + 1, s.stages[m + 1].stageId, now);
          }
          assert Shape(Advance(s, checks, now).state, m + 1);
        } else {
          assert Shape(Advance(s, checks, now).state, m);
        }
      } else {
        assert Shape(Advance(s, checks, now).state, m);
      }
  }

  lemma FirstNotStartedIs(s: PipelineState, m: nat)
    requires Shape(s, m) && s.currentStageId.None?
    ensures FirstNotStarted(s.stages) == m
  {
    var i := FirstNotStarted(s.stages);
    assert m < |s.stages| ==> s.stages[m].status == NotStarted;
  }

  lemma CallKeepsShape(s: PipelineState, m: nat, call: Call, now: string) returns (k: nat)
    requires Shape(s, m) && !call.OverrideStage?
    ensures m <= k && Shape(Apply(s, call, now).state, k)
  {
    k := m;
    match call
    case StartStage(stageId) => StartKeepsShape(s, m, stageId, now);
    case CompleteStage(stageId, checks) =>
      CompletionKeepsShape(s, m, stageId, checks, now);
      if Completion(s, stageId, checks, now).error in {None, Some(ReflectionFailed)} { k := m + 1; }
    case AdvancePipeline(checks) =>
      AdvanceKeepsShape(s, m, checks, now);
      k :| m <= k && Shape(Advance(s, checks, now).state, k);
  }

  /** Without an override the stages keep the shape complete*, then the current one, then not started*. */
  lemma {:induction false} RunKeepsShape(s: PipelineState, m: nat, calls: Calls) returns (k: nat)
    requires Shape(s, m)
    requires forall i :: 0 <= i < |calls| ==> !calls[i].0.OverrideStage?
    ensures m <= k && Shape(Run(s, calls), k)
  {
    k := m;
    if calls != [] {
      var front, last := calls[..|calls| - 1], calls[|calls| - 1];
      k := RunKeepsShape(s, m, front);
      k := CallKeepsShape(Run(s, front), k, last.0, last.1);
    }
  }

  /**
   * Advancing is refused only by a finished pipeline, a blocked current stage, or a blocking gate; and it raises, with
   * the stage complete, when the reflection fails.
   */
  lemma AdvanceRefusedIff(s: PipelineState, m: nat, checks: Checks, now: string)
    requires Shape(s, m)
    ensures Advance(s, checks, now).error ==
              if s.currentStageId.None? then (if m == |s.stages| then Some(PipelineComplete) else None)
              else if s.stages[m].status == Blocked then Some(CurrentNotActive)
              else if AnyBlocking(checks.results) then Some(BlockedByGates(BlockReason(checks.results)))
              else if checks.reflectionFails then Some(ReflectionFailed)
              else None
  {
    match s.currentStageId
    case None =>
      FirstNotStartedIs(s, m);
      if m < |s.stages| { StartKeepsShape(s, m, s.stages[m].stageId, now); }
    case Some(current) =>
      StageIndexIs(s.stages, m);
      if s.stages[m].status == Active {
        CompletionKeepsShape(s, m, current, checks, now);
        var completed := Completion(s, current, checks, now);
        if completed.error.None? && m + 1 < |s.stages| {
          StartKeepsShape(completed.state, m + 1, s.stages[m + 1].stageId, now);
        }
      }
  }

  predicate Pass(checks: Checks) {
    !AnyBlocking(checks.results) && !checks.reflectionFails
  }

  /** `k` calls to advance whose gates all pass. */
  ghost predicate PassingAdvances(calls: Calls, k: nat) {
    |calls| == k && forall i :: 0 <= i < k ==> calls[i].0.AdvancePipeline? && Pass(calls[i].0.checks)
  }

  /** Stages up to `m` are complete and stage `m`, if there is one, is active. */
  ghost predicate OnStage(s: PipelineState, m: nat) {
    && Shape(s, m)
    && (if m < |s.stages| then s.currentStageId.Some? && s.stages[m].status == Active else s.currentStageId.None?)
  }

  lemma PassingAdvance(s: PipelineState, m: nat, checks: Checks, now: string)
    requires OnStage(s, m) && m < |s.stages| && Pass(checks)
    ensures var after := Advance(s, checks, now);
            after.error.None? && |after.state.stages| == |s.stages| && OnStage(after.state, m + 1)
  {
    StageIndexIs(s.stages, m);
    var current := s.currentStageId.value;
    CompletionKeepsShape(s, m, current, checks, now);
    var completed := Completion(s, current, checks, now);
    if m + 1 < |s.stages| {
      StartKeepsShape(completed.state, m + 1, s.stages[m + 1].stageId, now);
    }
  }

  /**
   * A failed reflection stops an advance halfway: the stage is complete, none is current, and the next advance goes
   * on.
   */
  lemma AdvanceAgainAfterReflection(s: PipelineState, m: nat, checks: Checks, again: Checks, now: string)
    requires OnStage(s, m) && m < |s.stages| && !AnyBlocking(checks.results) && checks.reflectionFails
    ensures var halfway := Advance(s, checks, now).state;
            && Shape(halfway, m + 1) && halfway.currentStageId.None?
            && OnStage(Advance(halfway, again, now).state, m + 1)
  {
    StageIndexIs(s.stages, m);
    CompletionKeepsShape(s, m, s.currentStageId.value, checks, now);
    var halfway := Advance(s, checks, now).state;
    FirstNotStartedIs(halfway, m + 1);
    if m + 1 < |s.stages| {
      StartKeepsShape(halfway, m + 1, halfway.stages[m + 1].stageId, now);
    }
  }

  function AtMost(m: nat, n: nat): nat {
    if m <= n then m else n
  }

  lemma PassingCall(s: PipelineState, m: nat, call: Call, now: string)
    requires OnStage(s, m) && call.AdvancePipeline? && Pass(call.checks)
    ensures var after := Apply(s, call, now).state;
            |after.stages| == |s.stages| && OnStage(after, AtMost(m + 1, |s.stages|))
  {
    if m < |s.stages| {
      PassingAdvance(s, m, call.checks, now);
    } else {
      FirstNotStartedIs(s, m);
    }
  }

  /** Gate-passing advances complete one stage each until none is left, and then leave the state alone. */
  lemma {:induction false} AdvancesMoveOneStageEach(s: PipelineState, m: nat, calls: Calls, k: nat)
    requires OnStage(s, m) && PassingAdvances(calls, k)
    ensures var after := Run(s, calls);
            |after.stages| == |s.stages| && OnStage(after, AtMost(m + k, |s.stages|))
    decreases k
  {
    if k > 0 {
      var front, last := calls[..k - 1], calls[k - 1];
      AdvancesMoveOneStageEach(s, m, front, k - 1);
      var before, n := Run(s, front), |s.stages|;
      assert Run(s, calls) == Apply(before, last.0, last.1).state;
      PassingCall(before, AtMost(m + k - 1, n), last.0, last.1);
      assert AtMost(AtMost(m + k - 1, n) + 1, n) == AtMost(m + k, n);
    }
  }

  ghost predicate Finished(s: PipelineState) {
    s.currentStageId.None? && forall i :: 0 <= i < |s.stages| ==> s.stages[i].status == Complete
  }

  /**
   * A fresh pipeline of `n` stages is finished by the `n`-th gate-passing advance, no sooner; later ones are refused.
   */
  lemma ExactlyNAdvancesFinish(s: PipelineState, calls: Calls, k: nat, now: string)
    requires Scaffolded(s) && PassingAdvances(calls, k)
    ensures Finished(Run(s, calls)) <==> k >= |s.stages|
    ensures forall checks :: Pass(checks) ==>
              Advance(Run(s, calls), checks, now).error == if k >= |s.stages| then Some(PipelineComplete) else None
  {
    assert OnStage(s, 0);
    AdvancesMoveOneStageEach(s, 0, calls, k);
    var after, m := Run(s, calls), AtMost(k, |s.stages|);
    forall checks | Pass(checks)
      ensures Advance(after, checks, now).error == if k >= |s.stages| then Some(PipelineComplete) else None
    {
      AdvanceRefusedIff(after, m, checks, now);
    }
  }

  /**
   * Without overrides a start succeeds exactly for the first stage not complete, unless it is active: a blocked one
   * restarts.
   */
  lemma StartSucceedsIff(s: PipelineState, m: nat, stageId: string, now: string)
    requires Shape(s, m)
    ensures Start(s, stageId, now).error.None? <==>
              m < |s.stages| && stageId == s.stages[m].stageId && s.stages[m].status != Active
  {
    if m < |s.stages| { StageIndexIs(s.stages, m); }
    var i := StageIndex(s.stages, stageId);
    if i < |s.stages| && i > m {
      assert s.stages[i - 1].status != Complete;
    }
  }

  // ----- gates -----

  /** What is the same after a call on stage `i`: every other stage. */
  ghost predicate OtherStagesSame(before: seq<StageState>, after: seq<StageState>, i: nat) {
    |after| == |before| && forall j :: 0 <= j < |before| && j != i ==> after[j] == before[j]
  }

  /** One blocking result among any others blocks an active stage; without one it is complete and none is current. */
  lemma CompletionFollowsGates(s: PipelineState, i: nat, checks: Checks, now: string)
    requires i < |s.stages| && StageIndex(s.stages, s.stages[i].stageId) == i && s.stages[i].status == Active
    ensures var after := Completion(s, s.stages[i].stageId, checks, now); var stage := after.state.stages[i];
            && OtherStagesSame(s.stages, after.state.stages, i) && after.entries != []
            && s.stages[i].stageId in after.state.gates && after.state.gates[s.stages[i].stageId] == checks.results
            && if exists k :: 0 <= k < |checks.results| && checks.results[k].blocking then
                 && stage.status == Blocked && after.error.Some? && after.error.value.BlockedByGates?
                 && stage.blockedReason == Some(after.error.value.reason)
                 && after.state.currentStageId == s.currentStageId
                 && after.entries[|after.entries| - 1] == LogEntry(StageBlocked, stage.stageId, None)
               else
                 && stage.status == Complete && stage.completedAt == Some(now) && stage.blockedReason == None
                 && after.error == (if checks.reflectionFails then Some(ReflectionFailed) else None)
                 && after.state.currentStageId == None
                 && after.entries[|after.entries| - 1] == LogEntry(StageCompleted, stage.stageId, None)
  {
  }

  /** An advance from an active current stage does the same to it, and goes on only if nothing blocks or fails. */
  lemma AdvanceFollowsGates(s: PipelineState, i: nat, checks: Checks, now: string)
    requires UniqueStages(s.stages) && i < |s.stages| && s.stages[i].status == Active
    requires s.currentStageId == Some(s.stages[i].stageId)
    ensures var after := Advance(s, checks, now); var stage := after.state.stages;
            && |stage| == |s.stages|
            && if exists k :: 0 <= k < |checks.results| && checks.results[k].blocking then
                 && stage[i].status == Blocked && after.error.Some? && after.error.value.BlockedByGates?
                 && OtherStagesSame(s.stages, stage, i) && after.state.currentStageId == s.currentStageId
                 && after.entries[|after.entries| - 1] == LogEntry(StageBlocked, stage[i].stageId, None)
               else
                 && stage[i].status == Complete && LogEntry(StageCompleted, stage[i].stageId, None) in after.entries
                 && (checks.reflectionFails ==>
                       after.error == Some(ReflectionFailed) && after.state.currentStageId == None)
  {
    StageIndexIs(s.stages, i);
    CompletionFollowsGates(s, i, checks, now);
    var completed := Completion(s, s.stages[i].stageId, checks, now);
    assert completed.entries[|completed.entries| - 1] in completed.entries;
    if completed.error.None? && i + 1 < |s.stages| {
      StartLeavesEarlier(completed.state, i, s.stages[i + 1].stageId, now);
    }
  }

  /** Starting a stage does not touch a complete one. */
  lemma StartLeavesEarlier(s: PipelineState, i: nat, stageId: string, now: string)
    requires i < |s.stages| && s.stages[i].status == Complete
    ensures var after := Start(s, stageId, now).state.stages; |after| == |s.stages| && after[i] == s.stages[i]
  {
  }

  /** The summaries of the blocking results, in order. */
  function BlockingSummaries(results: seq<GateResult>): seq<string> {
    if results == [] then []
    else
      var n := |results| - 1;
      BlockingSummaries(results[..n]) + if results[n].blocking then [results[n].summary] else []
  }

  lemma {:induction false} BlockingSummariesFront(results: seq<GateResult>)
    requires results != []
    ensures BlockingSummaries(results) ==
              (if results[0].blocking then [results[0].summary] else []) + BlockingSummaries(results[1..])
  {
    var n := |results| - 1;
    if n > 0 {
      BlockingSummariesFront(results[..n]);
      assert results[..n][1..] == results[1..][..n - 1];
    } else {
      assert results[..0] == [] && results[1..] == [];
    }
  }

  lemma {:induction false} BlockingSummariesExact(results: seq<GateResult>, t: string)
    ensures t in BlockingSummaries(results) <==>
              exists k :: 0 <= k < |results| && results[k].blocking && results[k].summary == t
  {
    if results != [] {
      var n := |results| - 1;
      BlockingSummariesExact(results[..n], t);
      if k :| 0 <= k < |results| && results[k].blocking && results[k].summary == t {
        assert k < n ==> results[..n][k] == results[k];
      }
    }
  }

  /** The reason given is the blocking summaries and nothing else, in order, separated by semicolons. */
  lemma {:induction false} BlockReasonJoins(results: seq<GateResult>)
    ensures BlockReason(results) == Joined(BlockingSummaries(results), "; ")
  {
    if results != [] {
      BlockReasonJoins(results[1..]);
      BlockingSummariesFront(results);
      var rest := BlockingSummaries(results[1..]);
      NoneBlockingNoSummaries(results[1..]);
      if !results[0].blocking {
        assert [] + rest == rest;
      } else if rest != [] {
        var all := [results[0].summary] + rest;
        JoinedFront(all, "; ");
        assert all[1..] == rest;
      } else {
        assert [results[0].summary] + rest == [results[0].summary];
      }
    }
  }

  lemma {:induction false} NoneBlockingNoSummaries(results: seq<GateResult>)
    ensures BlockingSummaries(results) == [] <==> !AnyBlocking(results)
  {
    if results != [] {
      var n := |results| - 1;
      NoneBlockingNoSummaries(results[..n]);
      if k :| 0 <= k < |results| && results[k].blocking {
        assert k < n ==> results[..n][k].blocking;
      }
    }
  }

  /** So every blocking result is mentioned. */
  lemma BlockReasonMentions(results: seq<GateResult>, k: nat)
    requires k < |results| && results[k].blocking
    ensures Occurs(results[k].summary, BlockReason(results))
  {
    BlockReasonJoins(results);
    BlockingSummariesExact(results, results[k].summary);
    var j :| 0 <= j < |BlockingSummaries(results)| && BlockingSummaries(results)[j] == results[k].summary;
    JoinedHoldsEach(BlockingSummaries(results), "; ", j);
  }

  // ----- reasons and stamps -----

  /** Nothing but the space and the ASCII control characters that count as white space. */
  ghost predicate AllBlank(text: string) {
    forall i :: 0 <= i < |text| ==> text[i] as int == 32 || 9 <= text[i] as int <= 13 || 28 <= text[i] as int <= 31
  }

  /** Text whose ends, if it has any, are not blank. */
  ghost predicate TightEnds(text: string) {
    text != "" ==> !AllBlank([text[0]]) && !AllBlank([text[|text| - 1]])
  }

  lemma BlankIsBlank(c: char)
    ensures Blank(c) <==> AllBlank([c])
  {
    assert AllBlank([c]) ==> [c][0] as int == 32 || 9 <= [c][0] as int <= 13 || 28 <= [c][0] as int <= 31;
  }

  lemma BlankParts(a: string, b: string)
    ensures AllBlank(a + b) <==> AllBlank(a) && AllBlank(b)
  {
    if AllBlank(a + b) {
      assert forall i :: 0 <= i < |a| ==> (a + b)[i] == a[i];
      assert forall i :: 0 <= i < |b| ==> (a + b)[|a| + i] == b[i];
    }
  }

  /** Stripping takes away blanks at both ends and nothing else, as many as there are. */
  lemma {:induction false} StripTakesBlankEnds(text: string) returns (pre: string, post: string)
    ensures text == pre + Strip(text) + post && AllBlank(pre) && AllBlank(post) && TightEnds(Strip(text))
    decreases |text|
  {
    pre, post := "", "";
    if text != "" {
      var n := |text| - 1;
      BlankIsBlank(text[0]);
      BlankIsBlank(text[n]);
      if Blank(text[0]) {
        var inner, outer := StripTakesBlankEnds(text[1..]);
        BlankParts([text[0]], inner);
        PutBackBefore(text, inner, Strip(text), outer);
        return [text[0]] + inner, outer;
      } else if Blank(text[n]) {
        var outer, inner := StripTakesBlankEnds(text[..n]);
        BlankParts(inner, [text[n]]);
        PutBackAfter(text, outer, Strip(text), inner);
        return outer, inner + [text[n]];
      }
    }
  }

  lemma PutBackBefore(text: string, pre: string, middle: string, post: string)
    requires text != "" && text[1..] == pre + middle + post
    ensures text == [text[0]] + pre + middle + post
  {
  }

  lemma PutBackAfter(text: string, pre: string, middle: string, post: string)
    requires text != "" && text[..|text| - 1] == pre + middle + post
    ensures text == pre + middle + (post + [text[|text| - 1]])
  {
  }

  lemma StripIsEmptyIff(text: string)
    ensures Strip(text) == "" <==> AllBlank(text)
  {
    var pre, post := StripTakesBlankEnds(text);
    var s := Strip(text);
    BlankParts(pre + s, post);
    BlankParts(pre, s);
    if s != "" {
      assert s == [s[0]] + s[1..];
      BlankParts([s[0]], s[1..]);
    }
  }

  /** An override is refused for its reason exactly if that is all white space. */
  lemma OverrideNeedsReason(s: PipelineState, stageId: string, reason: string, now: string)
    ensures Override(s, stageId, reason, now).error == Some(ReasonRequired) <==> AllBlank(reason)
  {
    StripIsEmptyIff(reason);
  }

  /** A stage that has a time of entry keeps it, and one that becomes active without one gets `now`; ids stay. */
  ghost predicate EntryTimesKept(before: seq<StageState>, after: seq<StageState>, now: string) {
    && |after| == |before|
    && forall i :: 0 <= i < |before| ==>
         && after[i].stageId == before[i].stageId
         && (before[i].enteredAt.Some? && before[i].enteredAt.value != "" ==> after[i].enteredAt == before[i].enteredAt)
         && (after[i].status == Active && before[i].status != Active ==>
               after[i].enteredAt.Some? && after[i].enteredAt.value != "")
         && (after[i].enteredAt != before[i].enteredAt ==> after[i].enteredAt == Some(now))
  }

  lemma StartKeepsEntryTimes(s: PipelineState, stageId: string, now: string)
    requires now != ""
    ensures EntryTimesKept(s.stages, Start(s, stageId, now).state.stages, now)
  {
  }

  lemma CompletionKeepsEntryTimes(s: PipelineState, stageId: string, checks: Checks, now: string)
    ensures NoneEntered(s.stages, Completion(s, stageId, checks, now).state.stages)
  {
  }

  /** Ids and times of entry are as before, and no stage became active. */
  ghost predicate NoneEntered(before: seq<StageState>, after: seq<StageState>) {
    && |after| == |before|
    && forall i :: 0 <= i < |before| ==>
         && after[i].stageId == before[i].stageId && after[i].enteredAt == before[i].enteredAt
         && (after[i].status == Active ==> before[i].status == Active)
  }

  lemma EnteringLater(before: seq<StageState>, middle: seq<StageState>, after: seq<StageState>, now: string)
    requires NoneEntered(before, middle) && EntryTimesKept(middle, after, now)
    ensures EntryTimesKept(before, after, now)
  {
  }

  /** Over every call. */
  lemma CallKeepsEntryTimes(s: PipelineState, call: Call, now: string)
    requires now != ""
    ensures EntryTimesKept(s.stages, Apply(s, call, now).state.stages, now)
  {
    match call
    case StartStage(stageId) => StartKeepsEntryTimes(s, stageId, now);
    case CompleteStage(stageId, checks) => CompletionKeepsEntryTimes(s, stageId, checks, now);
    case OverrideStage(stageId, reason) =>
    case AdvancePipeline(checks) => AdvanceKeepsEntryTimes(s, checks, now);
  }

  lemma AdvanceKeepsEntryTimes(s: PipelineState, checks: Checks, now: string)
    requires now != ""
    ensures EntryTimesKept(s.stages, Advance(s, checks, now).state.stages, now)
  {
    match s.currentStageId
    case None =>
      var i := FirstNotStarted(s.stages);
      if i < |s.stages| { StartKeepsEntryTimes(s, s.stages[i].stageId, now); }
    case Some(current) =>
      var i := StageIndex(s.stages, current);
      if i < |s.stages| { GoOnKeepsEntryTimes(s, current, i, checks, now); }
  }

  lemma GoOnKeepsEntryTimes(s: PipelineState, current: string, i: nat, checks: Checks, now: string)
    requires now != "" && i < |s.stages|
    ensures EntryTimesKept(s.stages, CompleteAndGoOn(s, current, i, checks, now).state.stages, now)
  {
    var completed := Completion(s, current, checks, now);
    CompletionKeepsEntryTimes(s, current, checks, now);
    if completed.error.None? && i + 1 < |s.stages| {
      var stageId := s.stages[i + 1].stageId;
      StartKeepsEntryTimes(completed.state, stageId, now);
      EnteringLater(s.stages, completed.state.stages, Start(completed.state, stageId, now).state.stages, now);
    } else {
      assert CompleteAndGoOn(s, current, i, checks, now).state.stages == completed.state.stages;
    }
  }

  // ----- the log -----

  /** The view tells which stage is current and the status of every stage, under its id. */
  lemma ViewDetermines(a: PipelineState, b: PipelineState)
    requires ViewOf(a) == ViewOf(b)
    ensures a.currentStageId == b.currentStageId && |a.stages| == |b.stages|
    ensures forall i :: 0 <= i < |a.stages| ==>
              a.stages[i].stageId == b.stages[i].stageId && a.stages[i].status == b.stages[i].status
  {
    assert |ViewOf(a).stages| == |a.stages| && |ViewOf(b).stages| == |b.stages|;
    forall i | 0 <= i < |a.stages|
      ensures a.stages[i].stageId == b.stages[i].stageId && a.stages[i].status == b.stages[i].status
    {
      assert ViewOf(a).stages[i] == (a.stages[i].stageId, a.stages[i].status);
      assert ViewOf(b).stages[i] == (b.stages[i].stageId, b.stages[i].status);
    }
  }

  lemma PositionIsStageIndex(s: PipelineState, stageId: string)
    ensures Position(ViewOf(s).stages, stageId) == StageIndex(s.stages, stageId)
  {
    var i, j := Position(ViewOf(s).stages, stageId), StageIndex(s.stages, stageId);
    var ids := ViewOf(s).stages;
    assert forall k :: 0 <= k < |s.stages| ==> ids[k].0 == s.stages[k].stageId;
    assert i < |s.stages| ==> ids[i].0 == stageId;
    assert j < |s.stages| ==> ids[j].0 == stageId;
  }

  lemma ReadLogOne(view: View, entry: LogEntry)
    ensures ReadLog(view, [entry]) == ReadBack(view, entry)
  {
    assert [entry][..0] == [];
  }

  lemma {:induction false} ReadLogSplits(view: View, log: seq<LogEntry>, more: seq<LogEntry>)
    ensures ReadLog(view, log + more) == ReadLog(ReadLog(view, log), more)
    decreases |more|
  {
    if more == [] {
      assert log + more == log;
    } else {
      var front := more[..|more| - 1];
      assert (log + more)[..|log + more| - 1] == log + front;
      ReadLogSplits(view, log, front);
    }
  }

  lemma StartLogsItself(s: PipelineState, stageId: string, now: string)
    ensures var after := Start(s, stageId, now); ReadLog(ViewOf(s), after.entries) == ViewOf(after.state)
  {
    var after := Start(s, stageId, now);
    if after.error.None? {
      PositionIsStageIndex(s, stageId);
      ReadLogOne(ViewOf(s), after.entries[0]);
      assert SetStatus(ViewOf(s).stages, stageId, Active) == ViewOf(after.state).stages;
    }
  }

  lemma GateEventsSayNothing(view: View, stageId: string)
    ensures ReadLog(view, GateEvents(stageId)) == view
  {
    var events := GateEvents(stageId);
    assert events[..1] == [events[0]];
    ReadLogOne(view, events[0]);
  }

  lemma CompletionLogsItself(s: PipelineState, stageId: string, checks: Checks, now: string)
    ensures var after := Completion(s, stageId, checks, now); ReadLog(ViewOf(s), after.entries) == ViewOf(after.state)
  {
    var after := Completion(s, stageId, checks, now);
    if after.entries != [] {
      PositionIsStageIndex(s, stageId);
      GateEventsSayNothing(ViewOf(s), stageId);
      var last := after.entries[2];
      ReadLogSplits(ViewOf(s), GateEvents(stageId), [last]);
      ReadLogOne(ViewOf(s), last);
      assert after.entries == GateEvents(stageId) + [last];
      var status := if AnyBlocking(checks.results) then Blocked else Complete;
      assert SetStatus(ViewOf(s).stages, stageId, status) == ViewOf(after.state).stages;
    }
  }

  lemma OverrideLogsItself(s: PipelineState, stageId: string, reason: string, now: string)
    ensures var after := Override(s, stageId, reason, now); ReadLog(ViewOf(s), after.entries) == ViewOf(after.state)
  {
    var after := Override(s, stageId, reason, now);
    if after.entries != [] {
      ReadLogOne(ViewOf(s), after.entries[0]);
      assert ReadBack(ViewOf(s), after.entries[0]).stages == ViewOf(after.state).stages;
    }
  }

  /** What a call logs turns the view before it into the view after it. */
  lemma CallLogsItself(s: PipelineState, call: Call, now: string)
    ensures var after := Apply(s, call, now); ReadLog(ViewOf(s), after.entries) == ViewOf(after.state)
  {
    match call
    case StartStage(stageId) => StartLogsItself(s, stageId, now);
    case CompleteStage(stageId, checks) => CompletionLogsItself(s, stageId, checks, now);
    case OverrideStage(stageId, reason) => OverrideLogsItself(s, stageId, reason, now);
    case AdvancePipeline(checks) =>
      match s.currentStageId {
        case None =>
          var i := FirstNotStarted(s.stages);
          if i < |s.stages| { StartLogsItself(s, s.stages[i].stageId, now); }
        case Some(current) =>
          var i := StageIndex(s.stages, current);
          if i < |s.stages| && s.stages[i].status == Active {
            CompletionLogsItself(s, current, checks, now);
            var completed := Completion(s, current, checks, now);
            if completed.error.None? && i + 1 < |s.stages| {
              StartLogsItself(completed.state, s.stages[i + 1].stageId, now);
              var started := Start(completed.state, s.stages[i + 1].stageId, now);
              ReadLogSplits(ViewOf(s), completed.entries, started.entries);
            }
          }
      }
  }

  /** The log of any run rebuilds every stage status and the current stage. */
  lemma {:induction false} RunLogRebuildsState(s: PipelineState, calls: Calls)
    ensures var told, after := ReadLog(ViewOf(s), RunLog(s, calls)), Run(s, calls);
            && told == ViewOf(after) && told.current == after.currentStageId && |told.stages| == |after.stages|
            && forall i :: 0 <= i < |after.stages| ==>
                 told.stages[i] == (after.stages[i].stageId, after.stages[i].status)
  {
    if calls != [] {
      var front, last := calls[..|calls| - 1], calls[|calls| - 1];
      RunLogRebuildsState(s, front);
      CallLogsItself(Run(s, front), last.0, last.1);
      ReadLogSplits(ViewOf(s), RunLog(s, front), Apply(Run(s, front), last.0, last.1).entries);
    }
  }
}
