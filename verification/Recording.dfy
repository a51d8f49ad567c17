/** Recording a kernel run in the event store, and rebuilding its handle from the record. */
module Recording {
  import opened Common
  import opened Json
  import opened EventTable
  import opened EventStores
  import opened Transcript

  const SPAWN_STARTED := "AdapterSpawnStarted"
  const STREAM := "AdapterStreamEvent"
  const SPAWN_COMPLETED := "AdapterSpawnCompleted"
  const SPAWN_FAILED := "AdapterSpawnFailed"
  const ADAPTER_ID := "claude-code"

  datatype Persona = Persona(id: string, role: string, stageIds: seq<string>)

  datatype AgentHandle = AgentHandle(
    handleId: string, provider: string, personaId: string, stageId: Option<string>,
    status: string, outputs: seq<OutputArtifact>, metadata: Dict)

  /** What a spawn is asked to do; prompt and tool lists are already computed. */
  datatype Request = Request(
    runId: string, persona: Persona, context: string, prompt: string, granted: seq<string>, claudeTools: seq<string>)

  /** How the kernel run went: it never produced output, or it did and its hooks may still fail to tear down. */
  datatype KernelRun =
    | NeverRan(returncode: int, error: string)
    | Ran(result: RunResult, stderr: string, teardownError: Option<string>)

  datatype SpawnError = SpawnError(returncode: int, error: string)

  /** One event of a run, as appended and as read back. */
  datatype Record = Record(eventType: string, payload: Dict)

  function Texts(items: seq<string>): Json {
    List(seq(|items|, i requires 0 <= i < |items| => Str(items[i])))
  }

  function FirstStage(persona: Persona): Option<string> {
    if persona.stageIds == [] then None else Some(persona.stageIds[0])
  }

  // ----- what a spawn returns -----

  /** The error a finished subprocess or its hooks raise, if any. */
  function FailureOf(run: KernelRun): Option<SpawnError> {
    match run
    case NeverRan(returncode, error) => Some(SpawnError(returncode, error))
    case Ran(result, stderr, teardownError) =>
      if teardownError.Some? then Some(SpawnError(-1, teardownError.value))
      else if !Succeeded(result) then Some(SpawnError(result.returncode, stderr))
      else None
  }

  function Metadata(request: Request, result: RunResult): Dict {
    var text := TextOutput(result.events);
    map["adapter" := Str(ADAPTER_ID), "run_id" := Str(request.runId), "tools_granted" := Texts(request.granted),
        "tool_use_count" := Int(|ToolUses(result.events)|), "event_count" := Int(|result.events|),
        "text_length" := Int(|text|), "final_text" := Str(if |text| <= 500 then text else text[..500]),
        "returncode" := Int(result.returncode), "usage" := Usage(result.events),
        "total_cost_usd" := TotalCost(result.events)]
  }

  function HandleOf(request: Request, result: RunResult, handleId: string, locate: Locate): AgentHandle {
    AgentHandle(handleId, ADAPTER_ID, request.persona.id, FirstStage(request.persona), "completed",
                Outputs(result.events, locate), Metadata(request, result))
  }

  // ----- what a spawn records -----

  function StartedRecord(request: Request): Record {
    Record(SPAWN_STARTED,
      map["adapter" := Str(ADAPTER_ID), "persona_id" := Str(request.persona.id), "role" := Str(request.persona.role),
          "stage_id" := OptionalText(FirstStage(request.persona)), "prompt" := Str(request.prompt),
          "context" := Str(request.context), "granted_tools" := Texts(request.granted),
          "claude_tools" := Texts(request.claudeTools)])
  }

  function StreamRecord(e: StreamEvent): Record {
    Record(STREAM, map["type" := Str(e.kind), "raw" := Obj(e.raw)])
  }

  function StreamRecords(events: seq<StreamEvent>): seq<Record> {
    seq(|events|, i requires 0 <= i < |events| => StreamRecord(events[i]))
  }

  function CompletedRecord(handle: AgentHandle, result: RunResult): Record {
    Record(SPAWN_COMPLETED,
      map["adapter" := Str(ADAPTER_ID), "handle_id" := Str(handle.handleId), "status" := Str(handle.status),
          "returncode" := Int(result.returncode), "tool_use_count" := Int(|ToolUses(result.events)|),
          "text_length" := Int(|TextOutput(result.events)|), "metadata" := Obj(handle.metadata)])
  }

  function FailedRecord(error: SpawnError): Record {
    Record(SPAWN_FAILED,
      map["adapter" := Str(ADAPTER_ID), "returncode" := Int(error.returncode), "error" := Str(error.error)])
  }

  function LastRecord(request: Request, run: KernelRun, handleId: string, locate: Locate): Record {
    match FailureOf(run)
    case Some(error) => FailedRecord(error)
    case None => CompletedRecord(HandleOf(request, run.result, handleId, locate), run.result)
  }

  function EventsOf(run: KernelRun): seq<StreamEvent> {
    if run.Ran? then run.result.events else []
  }

  /** A first record, the stream records, and a last record. */
  function RunRecords(first: Record, events: seq<StreamEvent>, last: Record): seq<Record> {
    [first] + StreamRecords(events) + [last]
  }

  /** All records of one spawn, in recording order. */
  function RecordsOf(request: Request, run: KernelRun, handleId: string, locate: Locate): seq<Record> {
    RunRecords(StartedRecord(request), EventsOf(run), LastRecord(request, run, handleId, locate))
  }

  /** The records whose append succeeded. */
  function Kept(records: seq<Record>, kept: nat -> bool): seq<Record> {
    if records == [] then []
    else
      var n := |records| - 1;
      Kept(records[..n], kept) + if kept(n) then [records[n]] else []
  }

  // ----- replay -----

  datatype ReplayError = UnknownRun | NoStart | Incomplete | RunFailed | MalformedRecord | InvalidHandle

  datatype Scan = Scan(started: Option<Dict>, stream: seq<StreamEvent>, terminal: Option<Record>)

  /** One record scanned; `None` if it is a stream record without its type and object. */
  function ScanOne(scan: Scan, record: Record): Option<Scan> {
    if record.eventType == SPAWN_STARTED then Some(scan.(started := Some(record.payload)))
    else if record.eventType == STREAM then
      var kind, raw := Get(record.payload, "type"), Get(record.payload, "raw");
      if kind.Str? && raw.Obj? then Some(scan.(stream := scan.stream + [StreamEvent(kind.s, raw.fields)])) else None
    else if record.eventType in {SPAWN_COMPLETED, SPAWN_FAILED} then Some(scan.(terminal := Some(record)))
    else Some(scan)
  }

  function ScanAll(records: seq<Record>): Option<Scan> {
    if records == [] then Some(Scan(None, [], None))
    else
      match ScanAll(records[..|records| - 1])
      case None => None
      case Some(scan) => ScanOne(scan, records[|records| - 1])
  }

  /** The keys a handle is rebuilt from; the stage may be missing. */
  predicate HasHandleKeys(s: Dict, t: Dict) {
    {"adapter", "persona_id"} <= s.Keys && {"returncode", "handle_id", "status", "metadata"} <= t.Keys
  }

  /** The types the handle's validation insists on. */
  predicate HasHandleTypes(s: Dict, t: Dict) {
    && Get(s, "adapter").Str? && Get(s, "persona_id").Str? && (Get(s, "stage_id").Str? || Get(s, "stage_id").Null?)
    && Get(t, "handle_id").Str? && Get(t, "status").Str? && Get(t, "metadata").Obj?
  }

  function Rebuild(scan: Scan, locate: Locate): Result<AgentHandle, ReplayError> {
    if scan.started.None? then Err(NoStart)
    else if scan.terminal.None? then Err(Incomplete)
    else if scan.terminal.value.eventType == SPAWN_FAILED then Err(RunFailed)
    else
      var s, t := scan.started.value, scan.terminal.value.payload;
      if !HasHandleKeys(s, t) then Err(MalformedRecord)
      else if !HasHandleTypes(s, t) then Err(InvalidHandle)
      else
        var stage := Get(s, "stage_id");
        Ok(AgentHandle(Get(t, "handle_id").s, Get(s, "adapter").s, Get(s, "persona_id").s,
                       if stage.Str? then Some(stage.s) else None, Get(t, "status").s,
                       Outputs(scan.stream, locate), Get(t, "metadata").fields))
  }

  /** What replaying a run's records gives. */
  function ReplayOf(records: seq<Record>, locate: Locate): Result<AgentHandle, ReplayError> {
    if records == [] then Err(UnknownRun)
    else
      match ScanAll(records)
      case None => Err(MalformedRecord)
      case Some(scan) => Rebuild(scan, locate)
  }

  /** A stream's rows as records. */
  function AsRecords(rows: seq<StoredEvent>): seq<Record> {
    seq(|rows|, i requires 0 <= i < |rows| => Record(rows[i].eventType, rows[i].payload))
  }

  /** `replay_session`. */
  method ReplaySession(store: EventStore, runId: string, locate: Locate) returns (r: Result<AgentHandle, ReplayError>)
    ensures r == ReplayOf(AsRecords(StreamOf(store.events, runId)), locate)
  {
    var records := AsRecords(StreamOf(store.events, runId));
    if records == [] {
      return Err(UnknownRun);
    }
    var started: Option<Dict>, stream, terminal: Option<Record> := None, [], None;
    for i := 0 to |records|
      invariant ScanAll(records[..i]) == Some(Scan(started, stream, terminal))
    {
      var record := records[i];
      assert records[..i + 1][..i] == records[..i];
      assert ScanAll(records[..i + 1]) == ScanOne(Scan(started, stream, terminal), record);
      if record.eventType == SPAWN_STARTED {
        started := Some(record.payload);
      } else if record.eventType == STREAM {
        var kind, raw := Get(record.payload, "type"), Get(record.payload, "raw");
        if !kind.Str? || !raw.Obj? {
          MalformedStays(records, i + 1);
          return Err(MalformedRecord);
        }
        stream := stream + [StreamEvent(kind.s, raw.fields)];
      } else if record.eventType == SPAWN_COMPLETED || record.eventType == SPAWN_FAILED {
        terminal := Some(record);
      }
    }
    assert records[..|records|] == records;
    r := ReconstructHandle(started, stream, terminal, locate);
  }

  method ReconstructHandle(started: Option<Dict>, stream: seq<StreamEvent>, terminal: Option<Record>, locate: Locate)
    returns (r: Result<AgentHandle, ReplayError>)
    ensures r == Rebuild(Scan(started, stream, terminal), locate)
  {
    if started.None? {
      return Err(NoStart);
    }
    if terminal.None? {
      return Err(Incomplete);
    }
    if terminal.value.eventType == SPAWN_FAILED {
      return Err(RunFailed);
    }
    var s, t := started.value, terminal.value.payload;
    if !HasHandleKeys(s, t) {
      return Err(MalformedRecord);
    }
    if !HasHandleTypes(s, t) {
      return Err(InvalidHandle);
    }
    var stage := Get(s, "stage_id");
    var outputs := ExtractOutputs(RunResult(0, stream), locate);
    return Ok(AgentHandle(Get(t, "handle_id").s, Get(s, "adapter").s, Get(s, "persona_id").s,
                          if stage.Str? then Some(stage.s) else None, Get(t, "status").s, outputs,
                          Get(t, "metadata").fields));
  }

  lemma {:induction false} MalformedStays(records: seq<Record>, i: nat)
    requires i <= |records| && ScanAll(records[..i]).None?
    ensures ScanAll(records).None?
    decreases |records| - i
  {
    if i == |records| {
      assert records[..i] == records;
    } else {
      assert records[..i + 1][..i] == records[..i];
      MalformedStays(records, i + 1);
    }
  }

  // ----- the spawn -----

  /** What the rest of the world does to a spawn's appends: which are lost, and which others come just before each. */
  datatype World = World(kept: nat -> bool, before: nat -> seq<Append>)

  class ClaudeCodeAdapter {
    const store: EventStore

    constructor (store: EventStore)
      ensures this.store == store
    {
      this.store := store;
    }

    /** The records this run has in the store. */
    ghost function Recorded(runId: string): seq<Record>
      reads store
    {
      AsRecords(StreamOf(store.events, runId))
    }

    method ForeignAppends(appends: seq<Append>, ghost runId: string)
      requires forall a :: a in appends ==> a.stream != runId
      modifies store`events
      ensures Recorded(runId) == old(Recorded(runId))
    {
      for i := 0 to |appends|
        invariant Recorded(runId) == old(Recorded(runId))
      {
        var a := appends[i];
        StreamOfAppended(store.events, Appended(store.events, a.stream, a.eventType, a.payload)[|store.events|], runId);
        var id := store.Append(a.stream, a.eventType, a.payload);
      }
    }

    /** `_safe_append` of the run's `k`-th record, after whatever other runs append first. */
    method SafeAppend(runId: string, record: Record, k: nat, world: World)
      requires forall a :: a in world.before(k) ==> a.stream != runId
      modifies store`events
      ensures Recorded(runId) == old(Recorded(runId)) + if world.kept(k) then [record] else []
    {
      ForeignAppends(world.before(k), runId);
      if world.kept(k) {
        ghost var rows := StreamOf(store.events, runId);
        ghost var row := Appended(store.events, runId, record.eventType, record.payload)[|store.events|];
        StreamOfAppended(store.events, row, runId);
        var id := store.Append(runId, record.eventType, record.payload);
        assert AsRecords(rows + [row]) == AsRecords(rows) + [record];
      }
    }

    /** `spawn_agent`: start record, one record per stream line, then the terminal record. */
    method SpawnAgent(request: Request, run: KernelRun, handleId: string, locate: Locate, world: World)
      returns (r: Result<AgentHandle, SpawnError>)
      requires Recorded(request.runId) == []
      requires forall k: nat, a :: a in world.before(k) ==> a.stream != request.runId
      modifies store`events
      ensures r == match FailureOf(run)
                   case Some(error) => Err(error)
                   case None => Ok(HandleOf(request, run.result, handleId, locate))
      ensures r.Ok? <==> run.Ran? && run.teardownError.None? && Succeeded(run.result)
      ensures r.Ok? ==>
                && r.value.handleId == handleId && r.value.provider == "claude-code" && r.value.status == "completed"
                && r.value.personaId == request.persona.id && r.value.outputs == Outputs(run.result.events, locate)
                && r.value.stageId ==
                     if |request.persona.stageIds| > 0 then Some(request.persona.stageIds[0]) else None
      ensures r.Err? && run.NeverRan? ==> r.error == SpawnError(run.returncode, run.error)
      ensures r.Err? && run.Ran? && run.teardownError.Some? ==> r.error == SpawnError(-1, run.teardownError.value)
      ensures r.Err? && run.Ran? && run.teardownError.None? ==> r.error == SpawnError(run.result.returncode, run.stderr)
      ensures Recorded(request.runId) == Kept(RecordsOf(request, run, handleId, locate), world.kept)
    {
      ghost var records := RecordsOf(request, run, handleId, locate);
      SafeAppend(request.runId, StartedRecord(request), 0, world);
      KeptGrows(records, 0, world.kept);
      var next: nat := 1;
      if run.Ran? {
        for i := 0 to |run.result.events|
          invariant next == i + 1
          invariant Recorded(request.runId) == Kept(records[..next], world.kept)
        {
          SafeAppend(request.runId, StreamRecord(run.result.events[i]), next, world);
          KeptGrows(records, next, world.kept);
          next := next + 1;
        }
      }
      KeptGrows(records, next, world.kept);
      assert records[..next + 1] == records;
      match FailureOf(run)
      case Some(error) =>
        SafeAppend(request.runId, FailedRecord(error), next, world);
        return Err(error);
      case None =>
        var outputs := ExtractOutputs(run.result, locate);
        var handle := AgentHandle(handleId, ADAPTER_ID, request.persona.id, FirstStage(request.persona), "completed",
                                  outputs, Metadata(request, run.result));
        SafeAppend(request.runId, CompletedRecord(handle, run.result), next, world);
        return Ok(handle);
    }
  }

  lemma KeptGrows(records: seq<Record>, n: nat, kept: nat -> bool)
    requires n < |records|
    ensures Kept(records[..n + 1], kept) == Kept(records[..n], kept) + if kept(n) then [records[n]] else []
  {
    assert records[..n + 1][..n] == records[..n];
  }
}

module ReplayLaws {
  import opened Common
  import opened Json
  import opened TranscriptLaws
  import opened EventTable
  import opened Transcript
  import opened Recording

  /** The stream events among the first `n` whose record was kept. */
  function KeptEvents(events: seq<StreamEvent>, n: nat, kept: nat -> bool): seq<StreamEvent>
    requires n <= |events|
  {
    if n == 0 then []
    else KeptEvents(events, n - 1, kept) + if kept(n) then [events[n - 1]] else []
  }

  lemma ScanGrows(records: seq<Record>, record: Record)
    ensures ScanAll(records + [record]) ==
              match ScanAll(records) case None => None case Some(scan) => ScanOne(scan, record)
  {
    assert (records + [record])[..|records|] == records;
  }

  lemma ScanOfStreamRecord(scan: Scan, e: StreamEvent)
    ensures ScanOne(scan, StreamRecord(e)) == Some(scan.(stream := scan.stream + [e]))
  {
  }

  /** Scanning what is left of the start record and the first `n` stream records. */
  lemma {:induction false} ScanOfStream(first: Record, events: seq<StreamEvent>, n: nat, kept: nat -> bool)
    requires n <= |events| && first.eventType == SPAWN_STARTED
    ensures var records := [first] + StreamRecords(events);
            ScanAll(Kept(records[..n + 1], kept)) ==
              Some(Scan(if kept(0) then Some(first.payload) else None, KeptEvents(events, n, kept), None))
  {
    var records := [first] + StreamRecords(events);
    KeptGrows(records, n, kept);
    if n == 0 {
      assert records[..0] == [];
      if kept(0) { ScanGrows([], first); }
    } else {
      ScanOfStream(first, events, n - 1, kept);
      var before := Kept(records[..n], kept);
      StreamRecordAt(first, events, n);
      var scan := Scan(if kept(0) then Some(first.payload) else None, KeptEvents(events, n - 1, kept), None);
      ScanOneMoreLine(before, Kept(records[..n + 1], kept), scan, events[n - 1], kept(n));
    }
  }

  lemma StreamRecordAt(first: Record, events: seq<StreamEvent>, n: nat)
    requires 0 < n <= |events|
    ensures ([first] + StreamRecords(events))[n] == StreamRecord(events[n - 1])
  {
  }

  lemma ScanOneMoreLine(before: seq<Record>, after: seq<Record>, scan: Scan, e: StreamEvent, keep: bool)
    requires ScanAll(before) == Some(scan) && after == before + if keep then [StreamRecord(e)] else []
    ensures ScanAll(after) == Some(scan.(stream := scan.stream + if keep then [e] else []))
  {
    if keep {
      ScanGrows(before, StreamRecord(e));
      ScanOfStreamRecord(scan, e);
    } else {
      assert after == before;
      assert scan.stream + [] == scan.stream;
    }
  }

  lemma RunRecordsPrefix(first: Record, events: seq<StreamEvent>, last: Record)
    ensures var records, n := RunRecords(first, events, last), |events| + 1;
            && records[..n] == ([first] + StreamRecords(events))[..n]
            && records[..n + 1] == records && records[n] == last
  {
  }

  lemma ScanOfRun(first: Record, events: seq<StreamEvent>, last: Record, kept: nat -> bool)
    requires first.eventType == SPAWN_STARTED && last.eventType in {SPAWN_COMPLETED, SPAWN_FAILED}
    ensures ScanAll(Kept(RunRecords(first, events, last), kept)) ==
              Some(Scan(if kept(0) then Some(first.payload) else None,
                        KeptEvents(events, |events|, kept),
                        if kept(|events| + 1) then Some(last) else None))
  {
    var records := RunRecords(first, events, last);
    var n := |events| + 1;
    var before := Kept(records[..n], kept);
    RunRecordsPrefix(first, events, last);
    ScanOfStream(first, events, |events|, kept);
    KeptGrows(records, n, kept);
    if kept(n) {
      ScanGrows(before, last);
      assert Kept(records, kept) == before + [last];
    } else {
      assert Kept(records, kept) == before;
    }
  }

  lemma RebuildOfCompletedRun(
    request: Request, result: RunResult, handleId: string, locate: Locate, stream: seq<StreamEvent>)
    ensures var handle := HandleOf(request, result, handleId, locate);
            Rebuild(Scan(Some(StartedRecord(request).payload), stream, Some(CompletedRecord(handle, result))), locate)
              == Ok(handle.(outputs := Outputs(stream, locate)))
  {
  }

  /**
   * Record, then replay. A successful spawn replays to its own handle exactly if its first and last records were kept;
   * lost stream records can only lose outputs.
   */
  lemma RecordThenReplay(request: Request, run: KernelRun, handleId: string, locate: Locate, kept: nat -> bool)
    requires run.Ran? && FailureOf(run).None?
    ensures var events := run.result.events;
            var handle := HandleOf(request, run.result, handleId, locate);
            var replayed := ReplayOf(Kept(RecordsOf(request, run, handleId, locate), kept), locate);
            && (replayed.Ok? <==> kept(0) && kept(|events| + 1))
            && (replayed.Ok? ==>
                  replayed.value == handle.(outputs := Outputs(KeptEvents(events, |events|, kept), locate)))
  {
    var first, events, last := StartedRecord(request), run.result.events, LastRecord(request, run, handleId, locate);
    ScanOfRun(first, events, last, kept);
    assert ScanAll([]) == Some(Scan(None, [], None));
    RebuildOfCompletedRun(request, run.result, handleId, locate, KeptEvents(events, |events|, kept));
  }

  lemma {:induction false} NothingLost(events: seq<StreamEvent>, n: nat, kept: nat -> bool)
    requires n <= |events| && forall k: nat :: kept(k)
    ensures KeptEvents(events, n, kept) == events[..n]
  {
    if n > 0 {
      NothingLost(events, n - 1, kept);
      assert events[..n] == events[..n - 1] + [events[n - 1]];
    }
  }

  /** With no append lost, replaying a recorded run is the identity on the handle, outputs included. */
  lemma ReplayIsIdentity(request: Request, run: KernelRun, handleId: string, locate: Locate, kept: nat -> bool)
    requires run.Ran? && FailureOf(run).None? && forall k: nat :: kept(k)
    ensures ReplayOf(Kept(RecordsOf(request, run, handleId, locate), kept), locate) ==
              Ok(HandleOf(request, run.result, handleId, locate))
  {
    RecordThenReplay(request, run, handleId, locate, kept);
    NothingLost(run.result.events, |run.result.events|, kept);
    assert run.result.events[..|run.result.events|] == run.result.events;
  }

  /** The record of a start tells who was asked to do what, with what. */
  lemma StartRecordTells(a: Request, b: Request)
    requires StartedRecord(a).payload == StartedRecord(b).payload
    ensures a.persona.id == b.persona.id && a.persona.role == b.persona.role
    ensures FirstStage(a.persona) == FirstStage(b.persona)
    ensures a.prompt == b.prompt && a.context == b.context
    ensures a.granted == b.granted && a.claudeTools == b.claudeTools
  {
    var p, q := StartedRecord(a).payload, StartedRecord(b).payload;
    assert p["persona_id"] == q["persona_id"] && p["role"] == q["role"] && p["stage_id"] == q["stage_id"];
    assert p["prompt"] == q["prompt"] && p["context"] == q["context"];
    assert p["granted_tools"] == q["granted_tools"] && p["claude_tools"] == q["claude_tools"];
    TextsTell(a.granted, b.granted);
    TextsTell(a.claudeTools, b.claudeTools);
  }

  lemma TextsTell(a: seq<string>, b: seq<string>)
    requires Texts(a) == Texts(b)
    ensures a == b
  {
    assert |Texts(a).items| == |a| && |Texts(b).items| == |b|;
    assert forall i :: 0 <= i < |a| ==> Texts(a).items[i] == Str(a[i]);
    assert forall i :: 0 <= i < |b| ==> Texts(b).items[i] == Str(b[i]);
  }

  /** The metadata of a handle: whose run it was, and the counts, text, usage and cost of its transcript. */
  lemma MetadataTells(request: Request, result: RunResult, handleId: string, locate: Locate)
    ensures var m, text := HandleOf(request, result, handleId, locate).metadata, TextOutput(result.events);
            && Get(m, "run_id") == Str(request.runId) && Get(m, "tools_granted") == Texts(request.granted)
            && Get(m, "tool_use_count") == Int(|ToolUses(result.events)|)
            && Get(m, "event_count") == Int(|result.events|) && Get(m, "returncode") == Int(result.returncode)
            && Get(m, "text_length") == Int(|text|)
            && Get(m, "final_text").Str? && Get(m, "final_text").s <= text
            && |Get(m, "final_text").s| == (if |text| < 500 then |text| else 500)
  {
  }

  /** Text, usage and cost are those of the last result line, where it has them in the right form. */
  lemma ResultLineTells(events: seq<StreamEvent>, k: nat)
    requires k < |events| && events[k].kind == "result"
    requires forall j :: k < j < |events| ==> events[j].kind != "result"
    ensures var raw := events[k].raw;
            && (Get(raw, "result").Str? ==> TextOutput(events) == Get(raw, "result").s)
            && (!Get(raw, "result").Str? ==> TextOutput(events) == AssistantText(events))
            && Usage(events) == (if Get(raw, "usage").Obj? then Get(raw, "usage") else Obj(map[]))
            && var cost := Get(raw, "total_cost_usd");
               && (TotalCost(events).Null? <==> !cost.Int? && !cost.Number? && !cost.Bool?)
               && (cost.Number? ==> TotalCost(events) == cost)
               && (cost.Int? ==> TotalCost(events) == Number(cost.i as real))
               && (cost.Bool? ==> TotalCost(events) == Number(if cost.b then 1.0 else 0.0))
  {
    LastResultDecides(events, "result", k);
    LastResultDecides(events, "usage", k);
    LastResultDecides(events, "total_cost_usd", k);
  }

  /** The record of a completed run tells its handle and its counts; that of a failed one its error. */
  lemma LastRecordTells(request: Request, run: KernelRun, handleId: string, locate: Locate)
    ensures var record := LastRecord(request, run, handleId, locate); var p := record.payload;
            match FailureOf(run)
            case Some(error) =>
              && record.eventType == SPAWN_FAILED
              && Get(p, "returncode") == Int(error.returncode) && Get(p, "error") == Str(error.error)
            case None =>
              && record.eventType == SPAWN_COMPLETED && Get(p, "handle_id") == Str(handleId)
              && Get(p, "status") == Str("completed") && Get(p, "returncode") == Int(run.result.returncode)
              && Get(p, "tool_use_count") == Int(|ToolUses(run.result.events)|)
              && Get(p, "text_length") == Int(|TextOutput(run.result.events)|)
              && Get(p, "metadata") == Obj(HandleOf(request, run.result, handleId, locate).metadata)
  {
  }

  /** Scanned records of a completed run without one of the needed keys are malformed; with them, the types decide. */
  lemma MissingKeyIsMalformed(scan: Scan, locate: Locate)
    requires scan.started.Some? && scan.terminal.Some? && scan.terminal.value.eventType != SPAWN_FAILED
    ensures var s, t := scan.started.value, scan.terminal.value.payload;
            Rebuild(scan, locate) == Err(MalformedRecord) <==>
              "adapter" !in s || "persona_id" !in s || "returncode" !in t || "handle_id" !in t || "status" !in t
              || "metadata" !in t
  {
  }

  /** A failed run never replays to a handle, whichever of its records were lost. */
  lemma FailedRunNeverReplays(request: Request, run: KernelRun, handleId: string, locate: Locate, kept: nat -> bool)
    requires FailureOf(run).Some?
    ensures ReplayOf(Kept(RecordsOf(request, run, handleId, locate), kept), locate).Err?
  {
    ScanOfRun(StartedRecord(request), EventsOf(run), LastRecord(request, run, handleId, locate), kept);
  }

  /** Neither does a run cut off before its terminal record. */
  lemma UnfinishedRunNeverReplays(request: Request, events: seq<StreamEvent>, n: nat, locate: Locate, kept: nat -> bool)
    requires n <= |events|
    ensures ReplayOf(Kept(([StartedRecord(request)] + StreamRecords(events))[..n + 1], kept), locate).Err?
  {
    ScanOfStream(StartedRecord(request), events, n, kept);
  }

  /**
   * A run recorded and replayed, with other runs appending before, between and after its records: a failed spawn never
   * replays; a successful one replays if its first and last records were kept, and to its own handle if all were.
   */
  method SpawnThenReplay(
    adapter: ClaudeCodeAdapter, request: Request, run: KernelRun, handleId: string, locate: Locate, world: World,
    afterwards: seq<Append>)
    returns (spawned: Result<AgentHandle, SpawnError>, replayed: Result<AgentHandle, ReplayError>)
    requires adapter.Recorded(request.runId) == []
    requires forall k: nat, a :: a in world.before(k) ==> a.stream != request.runId
    requires forall a :: a in afterwards ==> a.stream != request.runId
    modifies adapter.store`events
    ensures spawned.Err? ==> replayed.Err?
    ensures spawned.Ok? ==> (replayed.Ok? <==> world.kept(0) && world.kept(|EventsOf(run)| + 1))
    ensures spawned.Ok? && (forall k: nat :: world.kept(k)) ==> replayed == Ok(spawned.value)
  {
    spawned := adapter.SpawnAgent(request, run, handleId, locate, world);
    adapter.ForeignAppends(afterwards, request.runId);
    replayed := ReplaySession(adapter.store, request.runId, locate);
    if spawned.Err? {
      FailedRunNeverReplays(request, run, handleId, locate, world.kept);
    } else {
      RecordThenReplay(request, run, handleId, locate, world.kept);
      if forall k: nat :: world.kept(k) {
        ReplayIsIdentity(request, run, handleId, locate, world.kept);
      }
    }
  }
}
