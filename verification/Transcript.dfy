/** A kernel run's stream-json transcript and what is projected from it. */
module Transcript {
  import opened Common
  import opened Json

  /** One parsed line: its envelope type and the whole object. */
  datatype StreamEvent = StreamEvent(kind: string, raw: Dict)

  datatype RunResult = RunResult(returncode: int, events: seq<StreamEvent>)

  /** One file a run wrote, and the tool it was first written with. */
  datatype OutputArtifact = OutputArtifact(path: string, tool: string)

  function Get(d: Dict, key: string): Json {
    if key in d then d[key] else Null
  }

  /** Python's truth value of a JSON value. */
  predicate Truthy(j: Json) {
    match j
    case Null => false
    case Bool(b) => b
    case Int(i) => i != 0
    case Number(r) => r != 0.0
    case Str(s) => s != ""
    case List(items) => items != []
    case Obj(fields) => fields.Keys != {}
  }

  function Objects(items: seq<Json>): seq<Dict> {
    if items == [] then []
    else (if items[0].Obj? then [items[0].fields] else []) + Objects(items[1..])
  }

  function ContentBlocks(e: StreamEvent): seq<Dict> {
    match Get(e.raw, "message")
    case Obj(message) => (match Get(message, "content") case List(items) => Objects(items) case _ => [])
    case _ => []
  }

  function OfType(blocks: seq<Dict>, kind: string): seq<Dict> {
    if blocks == [] then []
    else (if Get(blocks[0], "type") == Str(kind) then [blocks[0]] else []) + OfType(blocks[1..], kind)
  }

  function ToolUseBlocks(e: StreamEvent): seq<Dict> {
    OfType(ContentBlocks(e), "tool_use")
  }

  /** Every tool use of every assistant turn, in order. */
  function ToolUses(events: seq<StreamEvent>): seq<Dict> {
    if events == [] then []
    else
      var last := events[|events| - 1];
      ToolUses(events[..|events| - 1]) + if last.kind == "assistant" then ToolUseBlocks(last) else []
  }

  function JoinTexts(blocks: seq<Dict>): string {
    if blocks == [] then ""
    else (match Get(blocks[0], "text") case Str(s) => s case _ => "") + JoinTexts(blocks[1..])
  }

  function TextOf(e: StreamEvent): string {
    JoinTexts(OfType(ContentBlocks(e), "text"))
  }

  /** Texts of the assistant turns that have any, one per line. */
  function AssistantText(events: seq<StreamEvent>): string {
    if events == [] then ""
    else
      var front, last := AssistantText(events[..|events| - 1]), events[|events| - 1];
      if last.kind != "assistant" || TextOf(last) == "" then front
      else if front == "" then TextOf(last)
      else front + "\n" + TextOf(last)
  }

  /** The last `result` line. */
  function ResultEvent(events: seq<StreamEvent>): Option<StreamEvent> {
    if events == [] then None
    else if events[|events| - 1].kind == "result" then Some(events[|events| - 1])
    else ResultEvent(events[..|events| - 1])
  }

  function ResultField(events: seq<StreamEvent>, key: string): Json {
    match ResultEvent(events) case None => Null case Some(e) => Get(e.raw, key)
  }

  function TextOutput(events: seq<StreamEvent>): string {
    match ResultField(events, "result") case Str(s) => s case _ => AssistantText(events)
  }

  function Usage(events: seq<StreamEvent>): Json {
    match ResultField(events, "usage") case Obj(fields) => Obj(fields) case _ => Obj(map[])
  }

  function TotalCost(events: seq<StreamEvent>): Json {
    match ResultField(events, "total_cost_usd")
    case Int(i) => Number(i as real)
    case Number(r) => Number(r)
    case Bool(b) => Number(if b then 1.0 else 0.0)
    case _ => Null
  }

  predicate Succeeded(result: RunResult) {
    result.returncode == 0 && !Truthy(ResultField(result.events, "is_error"))
  }

  // ----- outputs -----

  /** Where a written path lies under the project root, if it does. */
  type Locate = string -> Option<string>

  /** The output one tool use stands for: a file-writing tool with a path inside the project. */
  function WrittenBy(block: Dict, locate: Locate): Option<OutputArtifact> {
    match Get(block, "name")
    case Str(tool) =>
      if tool !in {"Write", "Edit", "NotebookEdit"} then None
      else
        (match Get(block, "input")
         case Obj(fields) =>
           (match Get(fields, "file_path")
            case Str(path) =>
              if path == "" then None
              else (match locate(path) case None => None case Some(relative) => Some(OutputArtifact(relative, tool)))
            case _ => None)
         case _ => None)
    case _ => None
  }

  predicate WritesPath(blocks: seq<Dict>, locate: Locate, i: int, path: string) {
    && 0 <= i < |blocks|
    && WrittenBy(blocks[i], locate).Some?
    && WrittenBy(blocks[i], locate).value.path == path
  }

  /** Among the first `n` tool uses, the outputs whose path no earlier tool use had written, in order. */
  function FirstWrites(blocks: seq<Dict>, locate: Locate, n: nat): seq<OutputArtifact>
    requires n <= |blocks|
  {
    if n == 0 then []
    else
      var front := FirstWrites(blocks, locate, n - 1);
      match WrittenBy(blocks[n - 1], locate)
      case None => front
      case Some(o) => if exists i :: 0 <= i < n - 1 && WritesPath(blocks, locate, i, o.path) then front else front + [o]
  }

  function Outputs(events: seq<StreamEvent>, locate: Locate): seq<OutputArtifact> {
    FirstWrites(ToolUses(events), locate, |ToolUses(events)|)
  }

  ghost predicate HasPath(outputs: seq<OutputArtifact>, path: string) {
    exists k :: 0 <= k < |outputs| && outputs[k].path == path
  }

  ghost predicate WrittenBefore(blocks: seq<Dict>, locate: Locate, n: nat, path: string) {
    exists i :: 0 <= i < n && WritesPath(blocks, locate, i, path)
  }

  /** The outputs carry exactly the written paths, each once. */
  lemma {:induction false} OutputsAreTheWrittenPaths(blocks: seq<Dict>, locate: Locate, n: nat)
    requires n <= |blocks|
    ensures var outputs := FirstWrites(blocks, locate, n);
            && (forall path :: HasPath(outputs, path) <==> WrittenBefore(blocks, locate, n, path))
            && (forall j, k :: 0 <= j < k < |outputs| ==> outputs[j].path != outputs[k].path)
  {
    if n > 0 {
      OutputsAreTheWrittenPaths(blocks, locate, n - 1);
      var front, outputs := FirstWrites(blocks, locate, n - 1), FirstWrites(blocks, locate, n);
      forall path
        ensures HasPath(outputs, path) <==> HasPath(front, path) || WritesPath(blocks, locate, n - 1, path)
        ensures WrittenBefore(blocks, locate, n, path) <==>
                  WrittenBefore(blocks, locate, n - 1, path) || WritesPath(blocks, locate, n - 1, path)
      {
        OneMoreWrite(blocks, locate, n, path);
      }
      forall j, k | 0 <= j < k < |outputs| ensures outputs[j].path != outputs[k].path {
        if k == |front| {
          assert HasPath(front, front[j].path);
        }
      }
    }
  }

  lemma OneMoreWrite(blocks: seq<Dict>, locate: Locate, n: nat, path: string)
    requires 0 < n <= |blocks|
    requires HasPath(FirstWrites(blocks, locate, n - 1), path) <==> WrittenBefore(blocks, locate, n - 1, path)
    ensures HasPath(FirstWrites(blocks, locate, n), path) <==>
              HasPath(FirstWrites(blocks, locate, n - 1), path) || WritesPath(blocks, locate, n - 1, path)
  {
    var front, outputs := FirstWrites(blocks, locate, n - 1), FirstWrites(blocks, locate, n);
    if k :| 0 <= k < |front| && front[k].path == path {
      assert outputs[k].path == path;
    } else if WritesPath(blocks, locate, n - 1, path) {
      assert outputs[|front|].path == path;
    }
  }

  /** `tool_uses`. */
  method CollectToolUses(events: seq<StreamEvent>) returns (blocks: seq<Dict>)
    ensures blocks == ToolUses(events)
  {
    blocks := [];
    for i := 0 to |events|
      invariant blocks == ToolUses(events[..i])
    {
      assert events[..i + 1][..i] == events[..i];
      if events[i].kind == "assistant" {
        blocks := blocks + ToolUseBlocks(events[i]);
      }
    }
    assert events[..|events|] == events;
  }

  /** `extract_outputs`. */
  method ExtractOutputs(result: RunResult, locate: Locate) returns (artifacts: seq<OutputArtifact>)
    ensures artifacts == Outputs(result.events, locate)
  {
    var blocks := CollectToolUses(result.events);
    var seen: set<string> := {};
    artifacts := [];
    for i := 0 to |blocks|
      invariant artifacts == FirstWrites(blocks, locate, i)
      invariant forall p :: p in seen <==> exists k :: 0 <= k < i && WritesPath(blocks, locate, k, p)
    {
      match WrittenBy(blocks[i], locate)
      case None =>
      case Some(o) =>
        if o.path !in seen {
          artifacts := artifacts + [o];
        }
        assert WritesPath(blocks, locate, i, o.path);
        seen := seen + {o.path};
    }
  }
}

/** The projections of a transcript, in terms of its JSON alone. */
module TranscriptLaws {
  import opened Common
  import opened Json
  import opened Queues
  import opened Strings
  import opened Transcript

  /** The false values: nothing, zero and the empty ones. */
  lemma FalsyValues(j: Json)
    ensures !Truthy(j) <==> j in {Null, Bool(false), Int(0), Number(0.0), Str(""), List([]), Obj(map[])}
  {
    if j.Obj? { assert j.fields.Keys == {} <==> j.fields == map[]; }
  }

  /** The block at place `i` of the line's message content. */
  ghost predicate BlockAt(e: StreamEvent, i: int, block: Dict) {
    && "message" in e.raw && e.raw["message"].Obj?
    && var message := e.raw["message"].fields;
       && "content" in message && message["content"].List?
       && 0 <= i < |message["content"].items| && message["content"].items[i] == Obj(block)
  }

  ghost predicate HasType(block: Dict, kind: string) {
    "type" in block && block["type"] == Str(kind)
  }

  lemma {:induction false} ObjectsAre(items: seq<Json>, block: Dict)
    ensures block in Objects(items) <==> Obj(block) in items
  {
    if items != [] {
      assert items == [items[0]] + items[1..];
      ObjectsAre(items[1..], block);
    }
  }

  lemma {:induction false} OfTypeAre(blocks: seq<Dict>, kind: string, block: Dict)
    ensures block in OfType(blocks, kind) <==> block in blocks && HasType(block, kind)
  {
    if blocks != [] {
      assert blocks == [blocks[0]] + blocks[1..];
      OfTypeAre(blocks[1..], kind, block);
    }
  }

  /** A line's tool uses are the objects of its content that have that type. */
  lemma ToolUseBlocksAre(e: StreamEvent, block: Dict)
    ensures block in ToolUseBlocks(e) <==> (exists i :: BlockAt(e, i, block)) && HasType(block, "tool_use")
  {
    OfTypeAre(ContentBlocks(e), "tool_use", block);
    if "message" in e.raw && e.raw["message"].Obj? {
      var message := e.raw["message"].fields;
      if "content" in message && message["content"].List? {
        var items := message["content"].items;
        ObjectsAre(items, block);
        if Obj(block) in items {
          var i :| 0 <= i < |items| && items[i] == Obj(block);
          assert BlockAt(e, i, block);
        }
      }
    }
  }

  /** What one line adds to the run's tool uses. */
  function AddedBy(e: StreamEvent): seq<Dict> {
    if e.kind == "assistant" then ToolUseBlocks(e) else []
  }

  lemma ToolUsesOneMore(events: seq<StreamEvent>, e: StreamEvent)
    ensures ToolUses(events + [e]) == ToolUses(events) + AddedBy(e)
  {
    assert (events + [e])[..|events|] == events;
  }

  /** The run's tool uses are those of its assistant lines. */
  lemma {:induction false} ToolUsesAre(events: seq<StreamEvent>, block: Dict)
    ensures block in ToolUses(events) <==> exists e :: e in events && e.kind == "assistant" && block in ToolUseBlocks(e)
  {
    if events != [] {
      var front, last := events[..|events| - 1], events[|events| - 1];
      assert events == front + [last];
      ToolUsesAre(front, block);
      ToolUsesOneMore(front, last);
    }
  }

  // ----- order -----

  lemma {:induction false} ObjectsInOrder(items: seq<Json>, more: seq<Json>)
    ensures Objects(items + more) == Objects(items) + Objects(more)
  {
    if items == [] {
      assert items + more == more;
    } else {
      assert (items + more)[1..] == items[1..] + more;
      ObjectsInOrder(items[1..], more);
      Regroup(if items[0].Obj? then [items[0].fields] else [], Objects(items[1..]), Objects(more));
    }
  }

  lemma {:induction false} OfTypeInOrder(blocks: seq<Dict>, more: seq<Dict>, kind: string)
    ensures OfType(blocks + more, kind) == OfType(blocks, kind) + OfType(more, kind)
  {
    if blocks == [] {
      assert blocks + more == more;
    } else {
      assert (blocks + more)[1..] == blocks[1..] + more;
      OfTypeInOrder(blocks[1..], more, kind);
      var first := if Get(blocks[0], "type") == Str(kind) then [blocks[0]] else [];
      Regroup(first, OfType(blocks[1..], kind), OfType(more, kind));
    }
  }

  /** Tool uses come in the order of the lines. */
  lemma {:induction false} ToolUsesInOrder(events: seq<StreamEvent>, more: seq<StreamEvent>)
    ensures ToolUses(events + more) == ToolUses(events) + ToolUses(more)
    decreases |more|
  {
    if more == [] {
      assert events + more == events;
    } else {
      var front, last := more[..|more| - 1], more[|more| - 1];
      assert more == front + [last] && events + more == (events + front) + [last];
      ToolUsesInOrder(events, front);
      ToolUsesOneMore(events + front, last);
      ToolUsesOneMore(front, last);
      Regroup(ToolUses(events), ToolUses(front), AddedBy(last));
    }
  }

  // ----- outputs -----

  /**
   * Exactly which tool uses are outputs: those of a tool that writes files, with a non-empty path that lies in the
   * project.
   */
  lemma WrittenByIff(block: Dict, locate: Locate, o: OutputArtifact)
    ensures WrittenBy(block, locate) == Some(o) <==>
              && "name" in block && block["name"] == Str(o.tool) && o.tool in {"Write", "Edit", "NotebookEdit"}
              && "input" in block && block["input"].Obj? && "file_path" in block["input"].fields
              && var path := block["input"].fields["file_path"];
                 path.Str? && path.s != "" && locate(path.s) == Some(o.path)
  {
  }

  // ----- the result line and the text -----

  /** The last result line decides, whatever earlier ones say. */
  lemma {:induction false} LastResultDecides(events: seq<StreamEvent>, key: string, k: nat)
    requires k < |events| && events[k].kind == "result"
    requires forall j :: k < j < |events| ==> events[j].kind != "result"
    ensures ResultField(events, key) == if key in events[k].raw then events[k].raw[key] else Null
  {
    var n := |events| - 1;
    if k < n { LastResultDecides(events[..n], key, k); }
  }

  lemma {:induction false} NoResultNoField(events: seq<StreamEvent>, key: string)
    requires forall j :: 0 <= j < |events| ==> events[j].kind != "result"
    ensures ResultField(events, key) == Null
  {
    if events != [] { NoResultNoField(events[..|events| - 1], key); }
  }

  /** A run succeeded exactly if it returned 0 and its last result line, if any, does not carry a true error flag. */
  lemma SucceededIff(result: RunResult, k: nat)
    requires k < |result.events| ==> result.events[k].kind == "result"
    requires forall j :: 0 <= j < |result.events| && (j > k || k >= |result.events|) ==>
               result.events[j].kind != "result"
    ensures Succeeded(result) <==>
              && result.returncode == 0
              && (k < |result.events| && "is_error" in result.events[k].raw ==>
                    !Truthy(result.events[k].raw["is_error"]))
  {
    if k < |result.events| {
      LastResultDecides(result.events, "is_error", k);
    } else {
      NoResultNoField(result.events, "is_error");
    }
  }

  lemma {:induction false} JoinTextsInOrder(blocks: seq<Dict>, more: seq<Dict>)
    ensures JoinTexts(blocks + more) == JoinTexts(blocks) + JoinTexts(more)
  {
    if blocks == [] {
      assert blocks + more == more;
    } else {
      assert (blocks + more)[1..] == blocks[1..] + more;
      JoinTextsInOrder(blocks[1..], more);
      Regroup(match Get(blocks[0], "text") case Str(s) => s case _ => "", JoinTexts(blocks[1..]), JoinTexts(more));
    }
  }

  /** One more text block adds its text at the end of the line's text; any other block adds nothing. */
  lemma TextOneMore(blocks: seq<Dict>, block: Dict)
    ensures JoinTexts(OfType(blocks + [block], "text")) ==
              JoinTexts(OfType(blocks, "text"))
              + if HasType(block, "text") && "text" in block && block["text"].Str? then block["text"].s else ""
  {
    OfTypeInOrder(blocks, [block], "text");
    JoinTextsInOrder(OfType(blocks, "text"), OfType([block], "text"));
    assert [block][1..] == [];
  }

  /** The texts of the assistant lines that have any. */
  function SpokenTexts(events: seq<StreamEvent>): seq<string> {
    if events == [] then []
    else
      var rest := SpokenTexts(events[1..]);
      if events[0].kind == "assistant" && TextOf(events[0]) != "" then [TextOf(events[0])] + rest else rest
  }

  lemma {:induction false} SpokenTextsFront(events: seq<StreamEvent>)
    requires events != []
    ensures var n := |events| - 1;
            SpokenTexts(events) ==
              SpokenTexts(events[..n])
              + if events[n].kind == "assistant" && TextOf(events[n]) != "" then [TextOf(events[n])] else []
  {
    var n := |events| - 1;
    if n > 0 {
      SpokenTextsFront(events[1..]);
      assert events[..n][1..] == events[1..][..n - 1];
    } else {
      assert events[1..] == [] && events[..0] == [];
    }
  }

  lemma {:induction false} SpokenTextsNonEmpty(events: seq<StreamEvent>)
    ensures forall t :: t in SpokenTexts(events) ==> t != ""
  {
    if events != [] { SpokenTextsNonEmpty(events[1..]); }
  }

  lemma JoinedIsEmptyIff(parts: seq<string>)
    requires forall t :: t in parts ==> t != ""
    ensures Joined(parts, "\n") == "" <==> parts == []
  {
    if parts != [] { assert parts[|parts| - 1] in parts; }
  }

  /** The assistant text is those texts, one per line. */
  lemma {:induction false} AssistantTextJoins(events: seq<StreamEvent>)
    ensures AssistantText(events) == Joined(SpokenTexts(events), "\n")
  {
    if events != [] {
      var n := |events| - 1;
      var front, text := SpokenTexts(events[..n]), TextOf(events[n]);
      AssistantTextJoins(events[..n]);
      SpokenTextsFront(events);
      SpokenTextsNonEmpty(events[..n]);
      JoinedIsEmptyIff(front);
      if events[n].kind == "assistant" && text != "" {
        assert (front + [text])[..|front|] == front;
      } else {
        assert front + [] == front;
      }
    }
  }
}
