/** Pipeline state and what each transition makes of it, together with the events it logs. */
module Pipeline {
  import opened Common
  import opened Json

  datatype StageStatus = NotStarted | Active | Blocked | ReviewNeeded | Complete | Skipped

  datatype StageState = StageState(
    stageId: string, status: StageStatus,
    enteredAt: Option<string>, completedAt: Option<string>, blockedReason: Option<string>)

  datatype GateResult = GateResult(gateId: string, blocking: bool, summary: string)

  /** What completing a stage runs into: what its gates report, and whether the reflection recorded afterwards fails. */
  datatype Checks = Checks(results: seq<GateResult>, reflectionFails: bool)

  /** The state document; `rest` holds the entries no transition touches. */
  datatype PipelineState = PipelineState(
    projectId: string, currentStageId: Option<string>, stages: seq<StageState>,
    gates: map<string, seq<GateResult>>, lastEventId: Option<nat>, updatedAt: string, rest: Dict)

  datatype EventKind = StageStarted | StageCompleted | StageBlocked | StageOverride | GateStarted | GateCompleted

  datatype LogEntry = LogEntry(kind: EventKind, stageId: string, reason: Option<string>)

  datatype TransitionError =
    | UnknownStage(stageId: string)
    | AlreadyActive
    | AlreadyComplete
    | AnotherActive
    | PreviousIncomplete(previous: string)
    | NotActive
    | BlockedByGates(reason: string)
    | PipelineComplete
    | CurrentNotActive
    | ReasonRequired
    | ReflectionFailed

  /** What a call leaves: the state (time and event stamps aside), what it logs, and its error if it raises. */
  datatype Outcome = Outcome(state: PipelineState, entries: seq<LogEntry>, error: Option<TransitionError>)

  /** Position of the first stage with this id, or the number of stages. */
  function StageIndex(stages: seq<StageState>, stageId: string): (i: nat)
    ensures i <= |stages|
    ensures i < |stages| ==> stages[i].stageId == stageId
    ensures forall j :: 0 <= j < i ==> stages[j].stageId != stageId
  {
    if stages == [] || stages[0].stageId == stageId then 0
    else
      var i := StageIndex(stages[1..], stageId);
      assert forall j :: 0 < j < i + 1 ==> stages[j] == stages[1..][j - 1];
      i + 1
  }

  /** Position of the first stage not started yet, or the number of stages. */
  function FirstNotStarted(stages: seq<StageState>): (i: nat)
    ensures i <= |stages|
    ensures i < |stages| ==> stages[i].status == NotStarted
    ensures forall j :: 0 <= j < i ==> stages[j].status != NotStarted
  {
    if stages == [] || stages[0].status == NotStarted then 0
    else
      var i := FirstNotStarted(stages[1..]);
      assert forall j :: 0 < j < i + 1 ==> stages[j] == stages[1..][j - 1];
      i + 1
  }

  predicate AnyActive(stages: seq<StageState>) {
    exists i :: 0 <= i < |stages| && stages[i].status == Active
  }

  predicate AnyBlocking(results: seq<GateResult>) {
    exists i :: 0 <= i < |results| && results[i].blocking
  }

  /** Summaries of the blocking results, joined by `"; "`. */
  function BlockReason(results: seq<GateResult>): string {
    if results == [] then ""
    else if !results[0].blocking then BlockReason(results[1..])
    else if AnyBlocking(results[1..]) then results[0].summary + "; " + BlockReason(results[1..])
    else results[0].summary
  }

  /** `value or now`. */
  function OrNow(value: Option<string>, now: string): Option<string> {
    if value.Some? && value.value != "" then value else Some(now)
  }

  predicate Blank(c: char) {
    c in " \t\n\r\U{0B}\U{0C}\U{1C}\U{1D}\U{1E}\U{1F}"
  }

  /** `strip`, on ASCII white space. */
  function Strip(text: string): string
    decreases |text|
  {
    if text == "" then ""
    else if Blank(text[0]) then Strip(text[1..])
    else if Blank(text[|text| - 1]) then Strip(text[..|text| - 1])
    else text
  }

  function Refuse(s: PipelineState, error: TransitionError): Outcome {
    Outcome(s, [], Some(error))
  }

  /** Why `start_stage` refuses the stage at position `i`, if it does. */
  function StartRefusal(stages: seq<StageState>, i: nat): Option<TransitionError>
    requires i < |stages|
  {
    if stages[i].status == Active then Some(AlreadyActive)
    else if stages[i].status == Complete then Some(AlreadyComplete)
    else if AnyActive(stages) then Some(AnotherActive)
    else if i > 0 && stages[i - 1].status != Complete then Some(PreviousIncomplete(stages[i - 1].stageId))
    else None
  }

  function Start(s: PipelineState, stageId: string, now: string): Outcome {
    var i := StageIndex(s.stages, stageId);
    if i == |s.stages| then Refuse(s, UnknownStage(stageId))
    else
      match StartRefusal(s.stages, i)
      case Some(error) => Refuse(s, error)
      case None =>
        var stage := s.stages[i];
        var started := stage.(status := Active, enteredAt := OrNow(stage.enteredAt, now), blockedReason := None);
        Outcome(s.(stages := s.stages[i := started], currentStageId := Some(stageId)),
                [LogEntry(StageStarted, stageId, None)], None)
  }

  /** What evaluating a stage's gates logs. */
  function GateEvents(stageId: string): seq<LogEntry> {
    [LogEntry(GateStarted, stageId, None), LogEntry(GateCompleted, stageId, None)]
  }

  function Completion(s: PipelineState, stageId: string, checks: Checks, now: string): Outcome {
    var i := StageIndex(s.stages, stageId);
    if i == |s.stages| then Refuse(s, UnknownStage(stageId))
    else if s.stages[i].status != Active then Refuse(s, NotActive)
    else
      var evaluated := s.(gates := s.gates[stageId := checks.results]);
      if AnyBlocking(checks.results) then
        var stage := s.stages[i].(status := Blocked, blockedReason := Some(BlockReason(checks.results)));
        Outcome(evaluated.(stages := s.stages[i := stage]),
                GateEvents(stageId) + [LogEntry(StageBlocked, stageId, None)],
                Some(BlockedByGates(BlockReason(checks.results))))
      else
        var stage := s.stages[i].(status := Complete, completedAt := Some(now), blockedReason := None);
        Outcome(evaluated.(stages := s.stages[i := stage], currentStageId := None),
                GateEvents(stageId) + [LogEntry(StageCompleted, stageId, None)],
                if checks.reflectionFails then Some(ReflectionFailed) else None)
  }

  function Advance(s: PipelineState, checks: Checks, now: string): Outcome {
    match s.currentStageId
    case None =>
      var i := FirstNotStarted(s.stages);
      if i == |s.stages| then Refuse(s, PipelineComplete) else Start(s, s.stages[i].stageId, now)
    case Some(current) =>
      var i := StageIndex(s.stages, current);
      if i == |s.stages| then Refuse(s, UnknownStage(current))
      else if s.stages[i].status != Active then Refuse(s, CurrentNotActive)
      else CompleteAndGoOn(s, current, i, checks, now)
  }

  /** The rest of `advance`, once the current stage is known to be active at position `i`. */
  function CompleteAndGoOn(s: PipelineState, current: string, i: nat, checks: Checks, now: string): Outcome
    requires i < |s.stages|
  {
    var completed := Completion(s, current, checks, now);
    if completed.error.Some? then completed
    else if i + 1 >= |s.stages| then completed.(state := completed.state.(currentStageId := None))
    else
      var started := Start(completed.state, s.stages[i + 1].stageId, now);
      Outcome(started.state, completed.entries + started.entries, started.error)
  }

  /** The stages after an override: the target active, every other active stage blocked. */
  function Overridden(stages: seq<StageState>, target: string, now: string): (after: seq<StageState>)
    ensures |after| == |stages|
  {
    seq(|stages|, i requires 0 <= i < |stages| => OverriddenStage(stages[i], target, now))
  }

  function OverriddenStage(stage: StageState, target: string, now: string): StageState {
    if stage.stageId == target then
      stage.(status := Active, enteredAt := OrNow(stage.enteredAt, now), blockedReason := None)
    else if stage.status == Active then
      stage.(status := Blocked, blockedReason := Some("Superseded by override to `" + target + "`."))
    else stage
  }

  function Override(s: PipelineState, stageId: string, reason: string, now: string): Outcome {
    if Strip(reason) == "" then Refuse(s, ReasonRequired)
    else if StageIndex(s.stages, stageId) == |s.stages| then Refuse(s, UnknownStage(stageId))
    else Outcome(s.(stages := Overridden(s.stages, stageId, now), currentStageId := Some(stageId)),
                 [LogEntry(StageOverride, stageId, Some(Strip(reason)))], None)
  }

  datatype Call =
    | StartStage(stageId: string)
    | CompleteStage(stageId: string, checks: Checks)
    | AdvancePipeline(checks: Checks)
    | OverrideStage(stageId: string, reason: string)

  function Apply(s: PipelineState, call: Call, now: string): Outcome {
    match call
    case StartStage(stageId) => Start(s, stageId, now)
    case CompleteStage(stageId, checks) => Completion(s, stageId, checks, now)
    case AdvancePipeline(checks) => Advance(s, checks, now)
    case OverrideStage(stageId, reason) => Override(s, stageId, reason, now)
  }

  /** A run: calls in order, each with the time it reads; every call is made whether or not earlier ones raised. */
  type Calls = seq<(Call, string)>

  function Run(s: PipelineState, calls: Calls): PipelineState {
    if calls == [] then s
    else
      var (call, now) := calls[|calls| - 1];
      Apply(Run(s, calls[..|calls| - 1]), call, now).state
  }

  /** Everything a run logs. */
  function RunLog(s: PipelineState, calls: Calls): seq<LogEntry> {
    if calls == [] then []
    else
      var (call, now) := calls[|calls| - 1];
      RunLog(s, calls[..|calls| - 1]) + Apply(Run(s, calls[..|calls| - 1]), call, now).entries
  }

  /** The state a scaffolded project starts from: first stage active, the others not started. */
  ghost predicate Scaffolded(s: PipelineState) {
    && UniqueStages(s.stages)
    && s.currentStageId == (if s.stages == [] then None else Some(s.stages[0].stageId))
    && forall i :: 0 <= i < |s.stages| ==> s.stages[i].status == if i == 0 then Active else NotStarted
  }

  ghost predicate UniqueStages(stages: seq<StageState>) {
    forall i, j :: 0 <= i < j < |stages| ==> stages[i].stageId != stages[j].stageId
  }

  // ----- the log read back -----

  /** What the log determines: each stage's status, and which stage is current. */
  datatype View = View(current: Option<string>, stages: seq<(string, StageStatus)>)

  function ViewOf(s: PipelineState): View {
    View(s.currentStageId, seq(|s.stages|, i requires 0 <= i < |s.stages| => (s.stages[i].stageId, s.stages[i].status)))
  }

  function Position(stages: seq<(string, StageStatus)>, stageId: string): (i: nat)
    ensures i <= |stages|
    ensures i < |stages| ==> stages[i].0 == stageId
    ensures forall j :: 0 <= j < i ==> stages[j].0 != stageId
  {
    if stages == [] || stages[0].0 == stageId then 0
    else
      var i := Position(stages[1..], stageId);
      assert forall j :: 0 < j < i + 1 ==> stages[j] == stages[1..][j - 1];
      i + 1
  }

  function SetStatus(stages: seq<(string, StageStatus)>, stageId: string, status: StageStatus)
    : seq<(string, StageStatus)>
  {
    var i := Position(stages, stageId);
    if i < |stages| then stages[i := (stageId, status)] else stages
  }

  /** One logged event read back; gate events say nothing about stages. */
  function ReadBack(view: View, entry: LogEntry): View {
    match entry.kind
    case StageStarted => View(Some(entry.stageId), SetStatus(view.stages, entry.stageId, Active))
    case StageCompleted => View(None, SetStatus(view.stages, entry.stageId, Complete))
    case StageBlocked => View(view.current, SetStatus(view.stages, entry.stageId, Blocked))
    case StageOverride =>
      View(Some(entry.stageId), seq(|view.stages|, i requires 0 <= i < |view.stages| =>
        if view.stages[i].0 == entry.stageId then (entry.stageId, Active)
        else if view.stages[i].1 == Active then (view.stages[i].0, Blocked)
        else view.stages[i]))
    case GateStarted => view
    case GateCompleted => view
  }

  /** The log folded over a starting view. */
  function ReadLog(view: View, log: seq<LogEntry>): View {
    if log == [] then view else ReadBack(ReadLog(view, log[..|log| - 1]), log[|log| - 1])
  }

  // ----- the state document as the store sees it -----

  function StageJson(stage: StageState): Json {
    Obj(map["stage_id" := Str(stage.stageId), "status" := Str(StatusName(stage.status)),
            "entered_at" := OptionalText(stage.enteredAt), "completed_at" := OptionalText(stage.completedAt),
            "blocked_reason" := OptionalText(stage.blockedReason)])
  }

  function StatusName(status: StageStatus): string {
    match status
    case NotStarted => "not_started"
    case Active => "active"
    case Blocked => "blocked"
    case ReviewNeeded => "review_needed"
    case Complete => "complete"
    case Skipped => "skipped"
  }

  function ResultJson(result: GateResult): Json {
    Obj(map["gate_id" := Str(result.gateId), "blocking" := Bool(result.blocking), "summary" := Str(result.summary)])
  }

  function GateJson(results: seq<GateResult>): Json {
    Obj(map["blocked" := Bool(AnyBlocking(results)),
            "results" := List(seq(|results|, i requires 0 <= i < |results| => ResultJson(results[i])))])
  }

  /** `model_dump`. */
  function Dump(s: PipelineState): Dict {
    s.rest + map[
      "project_id" := Str(s.projectId),
      "current_stage_id" := OptionalText(s.currentStageId),
      "stages" := List(seq(|s.stages|, i requires 0 <= i < |s.stages| => StageJson(s.stages[i]))),
      "gates" := Obj(map id | id in s.gates :: GateJson(s.gates[id])),
      "last_event_id" := (match s.lastEventId case None => Null case Some(id) => Int(id)),
      "updated_at" := Str(s.updatedAt)]
  }
}
