/** The state document read back: the dictionary that is saved and appended determines the pipeline state. */
module StateDocuments {
  import opened Common
  import opened Json
  import opened Pipeline

  /** The entries that transitions write; everything else in the document is `rest`. */
  const STATE_KEYS := {"project_id", "current_stage_id", "stages", "gates", "last_event_id", "updated_at"}

  ghost predicate RestIsApart(s: PipelineState) {
    s.rest.Keys !! STATE_KEYS
  }

  function LoadText(j: Json): Option<Option<string>> {
    match j
    case Null => Some(None)
    case Str(text) => Some(Some(text))
    case _ => None
  }

  function LoadStatus(name: string): Option<StageStatus> {
    match name
    case "not_started" => Some(NotStarted)
    case "active" => Some(Active)
    case "blocked" => Some(Blocked)
    case "review_needed" => Some(ReviewNeeded)
    case "complete" => Some(Complete)
    case "skipped" => Some(Skipped)
    case _ => None
  }

  function LoadStage(j: Json): Option<StageState> {
    if !j.Obj? || !({"stage_id", "status", "entered_at", "completed_at", "blocked_reason"} <= j.fields.Keys) then None
    else
      var f := j.fields;
      if !f["stage_id"].Str? || !f["status"].Str? then None
      else
        match (LoadStatus(f["status"].s), LoadText(f["entered_at"]), LoadText(f["completed_at"]),
               LoadText(f["blocked_reason"]))
        case (Some(status), Some(entered), Some(completed), Some(reason)) =>
          Some(StageState(f["stage_id"].s, status, entered, completed, reason))
        case _ => None
  }

  function LoadStages(items: seq<Json>): Option<seq<StageState>> {
    if items == [] then Some([])
    else
      match (LoadStages(items[..|items| - 1]), LoadStage(items[|items| - 1]))
      case (Some(front), Some(last)) => Some(front + [last])
      case _ => None
  }

  function LoadResult(j: Json): Option<GateResult> {
    if !j.Obj? || !({"gate_id", "blocking", "summary"} <= j.fields.Keys) then None
    else
      match (j.fields["gate_id"], j.fields["blocking"], j.fields["summary"])
      case (Str(id), Bool(blocking), Str(summary)) => Some(GateResult(id, blocking, summary))
      case _ => None
  }

  function LoadResults(items: seq<Json>): Option<seq<GateResult>> {
    if items == [] then Some([])
    else
      match (LoadResults(items[..|items| - 1]), LoadResult(items[|items| - 1]))
      case (Some(front), Some(last)) => Some(front + [last])
      case _ => None
  }

  /** A stage's gate entry; its `blocked` flag must say whether some result blocks. */
  ghost function LoadGate(j: Json): Option<seq<GateResult>> {
    if !j.Obj? || !({"blocked", "results"} <= j.fields.Keys) || !j.fields["results"].List? then None
    else
      match LoadResults(j.fields["results"].items)
      case None => None
      case Some(results) =>
        var blocks := exists k :: 0 <= k < |results| && results[k].blocking;
        if j.fields["blocked"] == Bool(blocks) then Some(results) else None
  }

  ghost function LoadGates(fields: Dict): Option<map<string, seq<GateResult>>> {
    if forall id :: id in fields ==> LoadGate(fields[id]).Some?
    then Some(map id | id in fields :: LoadGate(fields[id]).value) else None
  }

  function LoadEventId(j: Json): Option<Option<nat>> {
    match j
    case Null => Some(None)
    case Int(i) => if i >= 0 then Some(Some(i)) else None
    case _ => None
  }

  /** The state that a document holds. */
  ghost function Load(d: Dict): Option<PipelineState> {
    if !(STATE_KEYS <= d.Keys) then None
    else if !d["project_id"].Str? || !d["stages"].List? || !d["gates"].Obj? || !d["updated_at"].Str? then None
    else
      match (LoadText(d["current_stage_id"]), LoadStages(d["stages"].items), LoadGates(d["gates"].fields),
             LoadEventId(d["last_event_id"]))
      case (Some(current), Some(stages), Some(gates), Some(eventId)) =>
        Some(PipelineState(d["project_id"].s, current, stages, gates, eventId, d["updated_at"].s, d - STATE_KEYS))
      case _ => None
  }

  // ----- reading back what was written -----

  lemma LoadStageJson(stage: StageState)
    ensures LoadStage(StageJson(stage)) == Some(stage)
  {
  }

  lemma {:induction false} LoadStagesJson(stages: seq<StageState>, items: seq<Json>)
    requires |items| == |stages| && forall i :: 0 <= i < |stages| ==> items[i] == StageJson(stages[i])
    ensures LoadStages(items) == Some(stages)
  {
    if stages != [] {
      var n := |stages| - 1;
      LoadStagesJson(stages[..n], items[..n]);
      LoadStageJson(stages[n]);
      assert stages == stages[..n] + [stages[n]];
    }
  }

  lemma {:induction false} LoadResultsJson(results: seq<GateResult>, items: seq<Json>)
    requires |items| == |results| && forall i :: 0 <= i < |results| ==> items[i] == ResultJson(results[i])
    ensures LoadResults(items) == Some(results)
  {
    if results != [] {
      var n := |results| - 1;
      LoadResultsJson(results[..n], items[..n]);
      assert LoadResult(items[n]) == Some(results[n]);
      assert results == results[..n] + [results[n]];
    }
  }

  lemma LoadGateJson(results: seq<GateResult>)
    ensures LoadGate(GateJson(results)) == Some(results)
  {
    var items := GateJson(results).fields["results"].items;
    assert forall i :: 0 <= i < |results| ==> items[i] == ResultJson(results[i]);
    LoadResultsJson(results, items);
  }

  lemma LoadGatesJson(gates: map<string, seq<GateResult>>)
    ensures LoadGates(map id | id in gates :: GateJson(gates[id])) == Some(gates)
  {
    var fields := map id | id in gates :: GateJson(gates[id]);
    forall id | id in gates ensures LoadGate(fields[id]) == Some(gates[id]) {
      LoadGateJson(gates[id]);
    }
    assert (map id | id in fields :: LoadGate(fields[id]).value) == gates;
  }

  /** The document determines the state: every stage, gate result, stamp and other entry is read back from it. */
  lemma LoadDump(s: PipelineState)
    requires RestIsApart(s)
    ensures Load(Dump(s)) == Some(s)
  {
    var d := Dump(s);
    RestIsLeft(s);
    DumpEntries(s);
    LoadStagesJson(s.stages, d["stages"].items);
    LoadGatesJson(s.gates);
    assert LoadText(d["current_stage_id"]) == Some(s.currentStageId);
    assert LoadEventId(d["last_event_id"]) == Some(s.lastEventId);
  }

  lemma DumpEntries(s: PipelineState)
    ensures var d := Dump(s);
            && STATE_KEYS <= d.Keys && d["project_id"] == Str(s.projectId) && d["updated_at"] == Str(s.updatedAt)
            && d["gates"] == Obj(map id | id in s.gates :: GateJson(s.gates[id]))
            && d["stages"].List? && |d["stages"].items| == |s.stages|
            && forall i :: 0 <= i < |s.stages| ==> d["stages"].items[i] == StageJson(s.stages[i])
  {
  }

  lemma RestIsLeft(s: PipelineState)
    requires RestIsApart(s)
    ensures Dump(s) - STATE_KEYS == s.rest && STATE_KEYS <= Dump(s).Keys
  {
  }
}
