/** JSON values, as payloads and state documents carry them. */
module Json {
  import opened Common

  datatype Json =
    | Null
    | Bool(b: bool)
    | Int(i: int)
    | Number(r: real)
    | Str(s: string)
    | List(items: seq<Json>)
    | Obj(fields: map<string, Json>)

  type Dict = map<string, Json>

  function OptionalText(value: Option<string>): Json {
    match value case None => Null case Some(text) => Str(text)
  }
}

/** The append-only event table: versions per stream, and state rebuilt from a snapshot and what follows it. */
module EventTable {
  import opened Common
  import opened Json

  datatype StoredEvent = StoredEvent(eventId: nat, stream: string, eventType: string, payload: Dict, version: nat)

  datatype Snapshot = Snapshot(state: Dict, version: int)

  /** Rows of one stream; the table is kept in event id order. */
  function StreamOf(events: seq<StoredEvent>, stream: string): seq<StoredEvent> {
    if events == [] then []
    else
      var front := StreamOf(events[..|events| - 1], stream);
      if events[|events| - 1].stream == stream then front + [events[|events| - 1]] else front
  }

  /** Rows of one stream with a version above `version`. */
  function StreamFrom(events: seq<StoredEvent>, stream: string, version: int): seq<StoredEvent> {
    if events == [] then []
    else
      var last := events[|events| - 1];
      var front := StreamFrom(events[..|events| - 1], stream, version);
      if last.stream == stream && last.version > version then front + [last] else front
  }

  /** `COALESCE(MAX(version), 0)` over one stream. */
  function MaxVersion(events: seq<StoredEvent>, stream: string): nat {
    if events == [] then 0
    else
      var last, front := events[|events| - 1], MaxVersion(events[..|events| - 1], stream);
      if last.stream == stream && last.version > front then last.version else front
  }

  function NextId(events: seq<StoredEvent>): nat {
    if events == [] then 1 else events[|events| - 1].eventId + 1
  }

  /** The table after one append. */
  function Appended(events: seq<StoredEvent>, stream: string, eventType: string, payload: Dict): seq<StoredEvent> {
    events + [StoredEvent(NextId(events), stream, eventType, payload, MaxVersion(events, stream) + 1)]
  }

  /** Every stream numbers its events 1, 2, 3, ... and ids grow along the table. */
  ghost predicate WellVersioned(events: seq<StoredEvent>) {
    && (forall stream :: Numbered(StreamOf(events, stream)))
    && (forall i, j :: 0 <= i < j < |events| ==> events[i].eventId < events[j].eventId)
  }

  ghost predicate Numbered(rows: seq<StoredEvent>) {
    forall k :: 0 <= k < |rows| ==> rows[k].version == k + 1
  }

  lemma {:induction false} MaxVersionIsStreamLength(events: seq<StoredEvent>, stream: string)
    requires Numbered(StreamOf(events, stream))
    ensures MaxVersion(events, stream) == |StreamOf(events, stream)|
  {
    if events != [] {
      var front := StreamOf(events[..|events| - 1], stream);
      assert forall k :: 0 <= k < |front| ==> front[k] == StreamOf(events, stream)[k];
      if events[|events| - 1].stream == stream {
        assert StreamOf(events, stream)[|front|].version == |front| + 1;
      }
      MaxVersionIsStreamLength(events[..|events| - 1], stream);
    }
  }

  lemma StreamOfAppended(events: seq<StoredEvent>, row: StoredEvent, stream: string)
    ensures StreamOf(events + [row], stream) == StreamOf(events, stream) + if row.stream == stream then [row] else []
  {
    assert (events + [row])[..|events|] == events;
  }

  /** The k-th event of a stream has version k, whatever is appended to which streams. */
  lemma AppendKeepsVersions(events: seq<StoredEvent>, stream: string, eventType: string, payload: Dict)
    requires WellVersioned(events)
    ensures WellVersioned(Appended(events, stream, eventType, payload))
  {
    var row := Appended(events, stream, eventType, payload)[|events|];
    forall other ensures Numbered(StreamOf(events + [row], other)) {
      assert Numbered(StreamOf(events, other));
      StreamOfAppended(events, row, other);
      if other == stream {
        MaxVersionIsStreamLength(events, stream);
        NumberedGrows(StreamOf(events, stream), row);
      }
    }
    IdsGrow(events, row);
  }

  lemma NumberedGrows(rows: seq<StoredEvent>, row: StoredEvent)
    requires Numbered(rows) && row.version == |rows| + 1
    ensures Numbered(rows + [row])
  {
  }

  lemma IdsGrow(events: seq<StoredEvent>, row: StoredEvent)
    requires forall i, j :: 0 <= i < j < |events| ==> events[i].eventId < events[j].eventId
    requires row.eventId == NextId(events)
    ensures var after := events + [row]; forall i, j :: 0 <= i < j < |after| ==> after[i].eventId < after[j].eventId
  {
  }

  datatype Append = Append(stream: string, eventType: string, payload: Dict)

  /** The table that a history of appends leaves. */
  function TableOf(history: seq<Append>): seq<StoredEvent> {
    if history == [] then []
    else
      var last := history[|history| - 1];
      Appended(TableOf(history[..|history| - 1]), last.stream, last.eventType, last.payload)
  }

  /** The appends of a history that went to one stream. */
  function HistoryOf(history: seq<Append>, stream: string): seq<Append> {
    if history == [] then []
    else
      var last, front := history[|history| - 1], HistoryOf(history[..|history| - 1], stream);
      if last.stream == stream then front + [last] else front
  }

  /** For any history of appends to any streams: a stream reads back its own appends, in order, numbered from 1. */
  lemma {:induction false} StreamReadsBackItsAppends(history: seq<Append>, stream: string)
    ensures WellVersioned(TableOf(history))
    ensures |StreamOf(TableOf(history), stream)| == |HistoryOf(history, stream)|
    ensures forall k :: 0 <= k < |HistoryOf(history, stream)| ==>
              var row, append := StreamOf(TableOf(history), stream)[k], HistoryOf(history, stream)[k];
              && row.version == k + 1 && row.stream == stream
              && row.eventType == append.eventType && row.payload == append.payload
  {
    if history != [] {
      var last, before := history[|history| - 1], history[..|history| - 1];
      StreamReadsBackItsAppends(before, stream);
      AppendKeepsVersions(TableOf(before), last.stream, last.eventType, last.payload);
      var table := TableOf(history);
      StreamOfAppended(TableOf(before), table[|table| - 1], stream);
      assert Numbered(StreamOf(table, stream));
    }
  }

  /** Reading from a version drops exactly the events up to it. */
  lemma {:induction false} StreamFromDropsPrefix(events: seq<StoredEvent>, stream: string, version: int)
    requires Numbered(StreamOf(events, stream))
    ensures var rows := StreamOf(events, stream);
            StreamFrom(events, stream, version) ==
              if version <= 0 then rows else if version >= |rows| then [] else rows[version..]
  {
    if events != [] {
      var rows, front := StreamOf(events, stream), StreamOf(events[..|events| - 1], stream);
      assert forall k :: 0 <= k < |front| ==> front[k] == rows[k];
      StreamFromDropsPrefix(events[..|events| - 1], stream, version);
      if events[|events| - 1].stream == stream {
        assert rows[|front|].version == |front| + 1;
        if 0 < version <= |front| {
          assert rows[version..] == front[version..] + [rows[|front|]];
        }
      }
    }
  }

  /** One event merged into the state; `None` if its `state` entry is not an object. */
  function Merge(state: Dict, payload: Dict): Option<Dict> {
    if "state" !in payload then Some(state)
    else match payload["state"]
      case Obj(fields) => Some(state + fields)
      case _ => None
  }

  /** All events merged in order. */
  function Fold(state: Dict, rows: seq<StoredEvent>): Option<Dict>
    decreases |rows|
  {
    if rows == [] then Some(state)
    else
      match Merge(state, rows[0].payload)
      case None => None
      case Some(next) => Fold(next, rows[1..])
  }

  /** The events above a version merged in order. */
  function FoldAfter(state: Dict, rows: seq<StoredEvent>, version: int): Option<Dict>
    decreases |rows|
  {
    if rows == [] then Some(state)
    else if rows[0].version <= version then FoldAfter(state, rows[1..], version)
    else
      match Merge(state, rows[0].payload)
      case None => None
      case Some(next) => FoldAfter(next, rows[1..], version)
  }

  /** The event carries a state document that has an entry for `key`. */
  ghost predicate Writes(row: StoredEvent, key: string) {
    "state" in row.payload && row.payload["state"].Obj? && key in row.payload["state"].fields
  }

  /** Merging fails exactly if some event has a `state` that is no object. */
  lemma {:induction false} FoldFailsIff(state: Dict, rows: seq<StoredEvent>)
    ensures Fold(state, rows).None? <==>
              exists k :: 0 <= k < |rows| && "state" in rows[k].payload && !rows[k].payload["state"].Obj?
    decreases |rows|
  {
    if rows != [] {
      assert rows == [rows[0]] + rows[1..];
      if Merge(state, rows[0].payload).Some? {
        FoldFailsIff(Merge(state, rows[0].payload).value, rows[1..]);
        if k :| 0 <= k < |rows| && "state" in rows[k].payload && !rows[k].payload["state"].Obj? {
          assert rows[1..][k - 1] == rows[k];
        }
      }
    }
  }

  /** A key that no event writes keeps what it had. */
  lemma {:induction false} UnwrittenStays(state: Dict, rows: seq<StoredEvent>, key: string)
    requires Fold(state, rows).Some? && forall k :: 0 <= k < |rows| ==> !Writes(rows[k], key)
    ensures var merged := Fold(state, rows).value;
            (key in merged <==> key in state) && (key in merged ==> merged[key] == state[key])
    decreases |rows|
  {
    if rows != [] {
      assert !Writes(rows[0], key);
      UnwrittenStays(Merge(state, rows[0].payload).value, rows[1..], key);
    }
  }

  /** A key that some event writes has what the last such event says. */
  lemma {:induction false} LastWriterWins(state: Dict, rows: seq<StoredEvent>, key: string, k: nat)
    requires Fold(state, rows).Some? && k < |rows| && Writes(rows[k], key)
    requires forall j :: k < j < |rows| ==> !Writes(rows[j], key)
    ensures var merged := Fold(state, rows).value; key in merged && merged[key] == rows[k].payload["state"].fields[key]
    decreases k
  {
    var next, rest := Merge(state, rows[0].payload).value, rows[1..];
    assert forall j :: 0 < j < |rows| ==> rows[j] == rest[j - 1];
    if k == 0 {
      UnwrittenStays(next, rest, key);
    } else {
      LastWriterWins(next, rest, key, k - 1);
    }
  }

  datatype Replay = NoEvents | Rebuilt(state: Dict) | Malformed

  /** The state replayed from the latest snapshot, if any, and the events after it. */
  function ReplaySpec(rows: seq<StoredEvent>, snapshot: Option<Snapshot>): Replay {
    if rows == [] then NoEvents
    else
      var start := if snapshot.Some? then snapshot.value else Snapshot(map[], 0);
      match FoldAfter(start.state, rows, start.version)
      case None => Malformed
      case Some(state) => Rebuilt(state)
  }

  lemma {:induction false} FoldSplits(state: Dict, rows: seq<StoredEvent>, more: seq<StoredEvent>)
    ensures Fold(state, rows + more) == match Fold(state, rows) case None => None case Some(mid) => Fold(mid, more)
    decreases |rows|
  {
    if rows == [] {
      assert rows + more == more;
    } else {
      assert (rows + more)[1..] == rows[1..] + more;
      match Merge(state, rows[0].payload)
      case None =>
      case Some(next) => FoldSplits(next, rows[1..], more);
    }
  }

  lemma {:induction false} FoldAfterDropsPrefix(state: Dict, rows: seq<StoredEvent>, first: nat, version: nat)
    requires forall k :: 0 <= k < |rows| ==> rows[k].version == first + k + 1
    requires version <= first + |rows|
    ensures FoldAfter(state, rows, version) == Fold(state, rows[if version <= first then 0 else version - first..])
    decreases |rows|
  {
    if rows != [] {
      if version <= first {
        match Merge(state, rows[0].payload)
        case None =>
        case Some(next) => FoldAfterDropsPrefix(next, rows[1..], first + 1, version);
      } else {
        FoldAfterDropsPrefix(state, rows[1..], first + 1, version);
        assert rows[1..][version - first - 1..] == rows[version - first..];
      }
    }
  }

  /** The snapshot holds the merge of the first `version` events of the stream. */
  ghost predicate SnapshotTrue(rows: seq<StoredEvent>, snapshot: Option<Snapshot>) {
    snapshot.Some? ==>
      && 0 <= snapshot.value.version <= |rows|
      && Fold(map[], rows[..snapshot.value.version]) == Some(snapshot.value.state)
  }

  /** A true snapshot changes nothing: replay equals the merge of the whole stream. */
  lemma SnapshotDoesNotMatter(rows: seq<StoredEvent>, snapshot: Option<Snapshot>)
    requires Numbered(rows) && SnapshotTrue(rows, snapshot)
    ensures ReplaySpec(rows, snapshot) == ReplaySpec(rows, None)
    ensures rows != [] ==>
              ReplaySpec(rows, None) ==
                match Fold(map[], rows) case None => Malformed case Some(state) => Rebuilt(state)
  {
    FoldAfterDropsPrefix(map[], rows, 0, 0);
    if snapshot.Some? {
      FoldFromSnapshot(rows, snapshot.value);
    }
  }

  lemma FoldFromSnapshot(rows: seq<StoredEvent>, snapshot: Snapshot)
    requires Numbered(rows) && SnapshotTrue(rows, Some(snapshot))
    ensures FoldAfter(snapshot.state, rows, snapshot.version) == Fold(map[], rows)
  {
    var k := snapshot.version;
    FoldAfterDropsPrefix(snapshot.state, rows, 0, k);
    FoldSplits(map[], rows[..k], rows[k..]);
    assert rows[..k] + rows[k..] == rows;
  }

  /** A snapshot that stays true for its prefix stays true as the stream grows. */
  lemma SnapshotStaysTrue(rows: seq<StoredEvent>, more: seq<StoredEvent>, snapshot: Option<Snapshot>)
    requires SnapshotTrue(rows, snapshot)
    ensures SnapshotTrue(rows + more, snapshot)
  {
    if snapshot.Some? {
      assert (rows + more)[..snapshot.value.version] == rows[..snapshot.value.version];
    }
  }
}

module EventStores {
  import opened Common
  import opened Json
  import opened EventTable

  class EventStore {
    var events: seq<StoredEvent>
    var snapshots: map<string, Snapshot>

    constructor ()
      ensures events == [] && snapshots == map[] && WellVersioned(events)
      ensures forall stream :: LoadSnapshot(stream) == None
    {
      events, snapshots := [], map[];
    }

    method Append(stream: string, eventType: string, payload: Dict) returns (eventId: nat)
      modifies this`events
      ensures events == Appended(old(events), stream, eventType, payload)
      ensures old(WellVersioned(events)) ==> WellVersioned(events)
      ensures eventId == events[|old(events)|].eventId
      ensures eventId == if old(events) == [] then 1 else old(events)[|old(events)| - 1].eventId + 1
    {
      var version := MaxVersion(events, stream) + 1;
      eventId := NextId(events);
      if WellVersioned(events) { AppendKeepsVersions(events, stream, eventType, payload); }
      events := events + [StoredEvent(eventId, stream, eventType, payload, version)];
    }

    method AppendStateEvent(stream: string, state: Dict) returns (eventId: nat)
      modifies this`events
      ensures events == Appended(old(events), stream, "StateSaved", map["state" := Obj(state)])
      ensures old(WellVersioned(events)) ==> WellVersioned(events)
    {
      eventId := Append(stream, "StateSaved", map["state" := Obj(state)]);
    }

    method SaveSnapshot(stream: string, state: Dict, version: int)
      modifies this`snapshots
      ensures LoadSnapshot(stream) == Some(Snapshot(state, version))
      ensures forall other :: other != stream ==> LoadSnapshot(other) == old(LoadSnapshot(other))
    {
      snapshots := snapshots[stream := Snapshot(state, version)];
    }

    function LoadSnapshot(stream: string): Option<Snapshot>
      reads this
    {
      if stream in snapshots then Some(snapshots[stream]) else None
    }

    /** `replay_state`. */
    method ReplayState(stream: string) returns (r: Replay)
      ensures r == ReplaySpec(StreamOf(events, stream), LoadSnapshot(stream))
      ensures WellVersioned(events) && SnapshotTrue(StreamOf(events, stream), LoadSnapshot(stream)) ==>
                r == ReplaySpec(StreamOf(events, stream), None)
    {
      var snapshot := LoadSnapshot(stream);
      var rows := StreamOf(events, stream);
      if WellVersioned(events) && SnapshotTrue(rows, snapshot) { SnapshotDoesNotMatter(rows, snapshot); }
      if rows == [] {
        return NoEvents;
      }
      var state: Dict, start := map[], 0;
      if snapshot.Some? {
        state, start := snapshot.value.state, snapshot.value.version;
      }
      ghost var whole := FoldAfter(state, rows, start);
      for i := 0 to |rows|
        invariant whole == FoldAfter(state, rows[i..], start)
      {
        if rows[i].version <= start {
          continue;
        }
        match Merge(state, rows[i].payload)
        case None => return Malformed;
        case Some(next) => state := next;
      }
      return Rebuilt(state);
    }
  }
}
