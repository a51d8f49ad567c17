/**
 * The state manager: transitions carried out as separate writes to state.json, state.md, the event store and the log.
 */
module StateManagers {
  import opened Common
  import opened Json
  import opened EventTable
  import opened EventStores
  import opened Pipeline
  import opened PipelineLaws
  import opened StateDocuments

  /** What a crash right now would leave behind: state.json, the log, what the store replays to, and the saves begun. */
  datatype Image = Image(state: PipelineState, log: seq<LogEntry>, replay: Replay, saves: nat)

  /** What the store is measured against: its first replay, every document saved, and whether all appends succeeded. */
  datatype Ledger = Ledger(begin: Replay, saves: seq<Dict>, prompt: bool)

  const LAST_EVENT := "last_event_id"

  /** The two documents agree on every key except the last event id. */
  ghost predicate SameButLastEvent(a: Dict, b: Dict) {
    a - {LAST_EVENT} == b - {LAST_EVENT}
  }

  /** Time and event stamps aside. */
  ghost predicate SameState(a: PipelineState, b: PipelineState) {
    a == b.(updatedAt := a.updatedAt, lastEventId := a.lastEventId)
  }

  /**
   * `full` is the log once the transition in flight is logged. The image's log is a prefix of it, and the image's state
   * is what the log tells, or tells with one more entry: the log is never ahead and at most one entry behind.
   */
  ghost predicate BehindByAtMostOne(origin: View, state: PipelineState, log: seq<LogEntry>, full: seq<LogEntry>) {
    && log <= full
    && (|| ReadLog(origin, log) == ViewOf(state)
        || (|log| < |full| && ReadLog(origin, full[..|log| + 1]) == ViewOf(state)))
  }

  ghost predicate AllBehind(origin: View, journal: seq<Image>, full: seq<LogEntry>) {
    forall i :: 0 <= i < |journal| ==> BehindByAtMostOne(origin, journal[i].state, journal[i].log, full)
  }

  /** The replay gives the `m`-th document saved, the last event id aside, or for 0 what it gave at first. */
  ghost predicate HoldsSave(replay: Replay, ledger: Ledger, m: nat) {
    && m <= |ledger.saves|
    && if m == 0 then replay == ledger.begin
       else replay.Rebuilt? && SameButLastEvent(replay.state, ledger.saves[m - 1])
  }

  /**
   * The image's state.json is the last document whose save had begun, and its store replays to some saved document:
   * if every append succeeded, to one at most `lag` saves older.
   */
  ghost predicate Follows(image: Image, ledger: Ledger, lag: nat) {
    && image.saves <= |ledger.saves|
    && (image.saves > 0 ==> SameButLastEvent(Dump(image.state), ledger.saves[image.saves - 1]))
    && exists m: nat ::
         m <= image.saves && HoldsSave(image.replay, ledger, m) && (ledger.prompt ==> image.saves <= m + lag)
  }

  ghost predicate AllFollow(journal: seq<Image>, ledger: Ledger) {
    forall i :: 0 <= i < |journal| ==> Follows(journal[i], ledger, 1)
  }

  class StateManager {
    const store: EventStore
    ghost const origin: View  // the view the log started from
    var state: PipelineState  // state.json
    var mirror: View          // state.md
    var log: seq<LogEntry>    // events.jsonl
    ghost var journal: seq<Image>  // the image after every single write, oldest first
    ghost var ledger: Ledger

    constructor (initial: PipelineState, store: EventStore)
      ensures this.store == store && state == initial && log == [] && origin == ViewOf(initial)
      ensures journal == [] && ledger == Ledger(Replayed(), [], true) && InStep() && StoreFollows()
    {
      this.store := store;
      origin := ViewOf(initial);
      state, mirror, log := initial, ViewOf(initial), [];
      journal := [];
      var stream := "project/" + initial.projectId;
      ledger := Ledger(ReplaySpec(StreamOf(store.events, stream), store.LoadSnapshot(stream)), [], true);
      new;
      assert HoldsSave(Replayed(), ledger, 0);
    }

    function Stream(): string
      reads this`state
    {
      "project/" + state.projectId
    }

    /** Between calls: the log rebuilds the state and the mirror shows it. */
    ghost predicate InStep()
      reads this`state, this`log, this`mirror
    {
      ReadLog(origin, log) == ViewOf(state) && mirror == ViewOf(state)
    }

    /**
     * In every image so far the log was behind by at most the transition in flight, and the store by at most one
     * save.
     */
    ghost predicate Recorded(full: seq<LogEntry>)
      reads this`journal, this`ledger
    {
      AllBehind(origin, journal, full) && AllFollow(journal, ledger)
    }

    ghost predicate FitsRecord(image: Image, full: seq<LogEntry>)
      reads this`ledger
    {
      BehindByAtMostOne(origin, image.state, image.log, full) && Follows(image, ledger, 1)
    }

    ghost function Rows(): seq<StoredEvent>
      reads this`state, store
    {
      StreamOf(store.events, Stream())
    }

    /** Only this manager writes the project's stream, and always the whole document; its snapshot, if any, is true. */
    ghost predicate StoreIsOurs()
      reads this`state, store
    {
      && WellVersioned(store.events)
      && SnapshotTrue(Rows(), store.LoadSnapshot(Stream()))
      && AllDocuments(Rows(), Dump(state).Keys)
    }

    ghost function Replayed(): Replay
      reads this`state, store
    {
      ReplaySpec(Rows(), store.LoadSnapshot(Stream()))
    }

    /** Replaying the project's stream gives state.json, the last event id aside. */
    ghost predicate Agrees()
      reads this`state, store
    {
      Replayed().Rebuilt? && SameButLastEvent(Replayed().state, Dump(state))
    }

    /** Reading back the document that the stream replays to gives the state, the last event id aside. */
    ghost predicate LoadsBack()
      reads this`state, store
    {
      && Replayed().Rebuilt?
      && Load(Replayed().state[LAST_EVENT := Null]) == Some(state.(lastEventId := None))
    }

    ghost function Now(): Image
      reads this`state, this`log, this`ledger, store
    {
      Image(state, log, Replayed(), |ledger.saves|)
    }

    ghost predicate LastIsNow()
      reads this`state, this`log, this`ledger, this`journal, store
    {
      journal != [] ==> journal[|journal| - 1] == Now()
    }

    /** The store is not behind, and the last image shows what there is now. */
    ghost predicate StoreFollows()
      reads this`state, this`log, this`ledger, this`journal, store
    {
      Follows(Now(), ledger, 0) && LastIsNow()
    }

    /** Holds between calls. */
    ghost predicate Ready()
      reads this, store
    {
      InStep() && Recorded(log) && StoreIsOurs() && StoreFollows()
    }

    lemma AgreesLoadsBack()
      ensures Agrees() && RestIsApart(state) ==> LoadsBack()
    {
      if Agrees() && RestIsApart(state) { AgreeingDocumentLoads(Replayed().state, state); }
    }

    // ----- single writes -----

    method WriteState(s: PipelineState, ghost full: seq<LogEntry>)
      requires Recorded(full) && s.projectId == state.projectId
      requires FitsRecord(Now().(state := s), full)
      modifies this`state, this`journal
      ensures state == s && Now() == old(Now()).(state := s)
      ensures Recorded(full) && LastIsNow() && old(journal) <= journal
    {
      state := s;
      JournalGrows(origin, journal, Now(), full, ledger);
      journal := journal + [Now()];
    }

    method WriteMarkdown(s: PipelineState, ghost full: seq<LogEntry>)
      requires Recorded(full) && FitsRecord(Now(), full)
      modifies this`mirror, this`journal
      ensures mirror == ViewOf(s) && Recorded(full) && LastIsNow() && old(journal) <= journal
    {
      mirror := ViewOf(s);
      JournalGrows(origin, journal, Now(), full, ledger);
      journal := journal + [Now()];
    }

    method AppendLog(entry: LogEntry, ghost full: seq<LogEntry>)
      requires Recorded(full) && FitsRecord(Now().(log := log + [entry]), full)
      modifies this`log, this`journal
      ensures log == old(log) + [entry] && Now() == old(Now()).(log := log)
      ensures Recorded(full) && LastIsNow() && old(journal) <= journal
    {
      log := log + [entry];
      JournalGrows(origin, journal, Now(), full, ledger);
      journal := journal + [Now()];
    }

    // ----- save and log_transition -----

    /** `save`; `appends` says whether the best-effort store append succeeds, `full` is the log it runs ahead of. */
    method Save(s: PipelineState, now: string, appends: bool, ghost full: seq<LogEntry>)
      requires StoreIsOurs() && StoreFollows() && s.projectId == state.projectId && s.rest == state.rest
      requires BehindByAtMostOne(origin, s, log, full) && Recorded(full)
      modifies this`state, this`mirror, this`journal, this`ledger, store`events
      ensures state == s.(updatedAt := now) && mirror == ViewOf(s)
      ensures StoreIsOurs() && StoreFollows() && (appends ==> Agrees()) && KeepsUp(appends)
      ensures appends && RestIsApart(s) ==> LoadsBack()
      ensures Recorded(full) && old(journal) <= journal
    {
      SaveFiles(s, now, full);
      if appends {
        AppendToStore(full);
        AgreesLoadsBack();
      } else {
        MissAppend(full);
      }
    }

    /** A save whose append is lost: from here on the store may be any number of saves behind. */
    ghost method MissAppend(full: seq<LogEntry>)
      requires Recorded(full) && FitsRecord(Now(), full) && LastIsNow()
      modifies this`ledger
      ensures ledger == old(ledger).(prompt := false) && Recorded(full) && StoreFollows()
    {
      LostAppend(journal, Now(), ledger);
      ledger := ledger.(prompt := false);
    }

    /** The two file writes of a save; the store is one save behind after them. */
    method SaveFiles(s: PipelineState, now: string, ghost full: seq<LogEntry>)
      requires StoreIsOurs() && StoreFollows() && s.projectId == state.projectId && s.rest == state.rest
      requires BehindByAtMostOne(origin, s, log, full) && Recorded(full)
      modifies this`state, this`mirror, this`journal, this`ledger
      ensures state == s.(updatedAt := now) && mirror == ViewOf(s) && StoreIsOurs()
      ensures ledger == old(ledger).(saves := old(ledger).saves + [Dump(state)])
      ensures FitsRecord(Now(), full) && LastIsNow()
      ensures Recorded(full) && old(journal) <= journal
    {
      var saved := s.(updatedAt := now);
      assert ViewOf(saved) == ViewOf(s);
      SameKeys(state, saved);
      SaveBegins(journal, Now(), ledger, saved);
      ledger := ledger.(saves := ledger.saves + [Dump(saved)]);
      WriteState(saved, full);
      WriteMarkdown(saved, full);
    }

    /** The dual write of the state just saved. */
    method AppendToStore(ghost full: seq<LogEntry>)
      requires StoreIsOurs() && Recorded(full) && BehindByAtMostOne(origin, state, log, full)
      requires ledger.saves != [] && ledger.saves[|ledger.saves| - 1] == Dump(state)
      modifies this`journal, store`events
      ensures StoreIsOurs() && StoreFollows() && Agrees()
      ensures Recorded(full) && old(journal) <= journal
    {
      AppendRow();
      LatestFollows(Now(), ledger);
      JournalGrows(origin, journal, Now(), full, ledger);
      journal := journal + [Now()];
    }

    /** The row appended makes the stream replay to the state. */
    method AppendRow()
      requires StoreIsOurs()
      modifies store`events
      ensures StoreIsOurs() && Replayed() == Rebuilt(Dump(state))
    {
      SavedRowReplaysToItself(Rows(), store.LoadSnapshot(Stream()), Dump(state), store.events, Stream());
      var id := store.AppendStateEvent(Stream(), Dump(state));
    }

    /** `log_transition`: append to the log, then write state.json again with the event's id. */
    method LogTransition(s: PipelineState, entry: LogEntry)
      requires state == s && StoreIsOurs() && StoreFollows() && Recorded(log + [entry])
      requires ReadLog(origin, log + [entry]) == ViewOf(s)
      modifies this`state, this`log, this`journal
      ensures state == s.(lastEventId := Some(|old(log)| + 1)) && log == old(log) + [entry]
      ensures ReadLog(origin, log) == ViewOf(state)
      ensures StoreIsOurs() && StoreFollows() && (old(Agrees()) ==> Agrees())
      ensures Recorded(log) && old(journal) <= journal
    {
      ghost var full := log + [entry];
      assert full[..|log| + 1] == full;
      var stamped := s.(lastEventId := Some(|log| + 1));
      assert ViewOf(stamped) == ViewOf(s);
      StampKeepsDocument(s, |log| + 1);
      StampFollows(Now(), ledger, full, stamped);
      AppendLog(entry, full);
      WriteState(stamped, full);
    }

    // ----- transitions -----

    /** The call was refused with nothing written, or carried out its outcome; no image was ever further behind. */
    twostate predicate Carried(outcome: Outcome, now: string)
      reads this, store
    {
      && (if outcome.entries == [] then Untouched()
          else state == outcome.state.(updatedAt := now, lastEventId := Some(|log|)))
      && log == old(log) + outcome.entries
      && Ready() && old(journal) <= journal
    }

    /** Unless an append failed, the store keeps up. */
    twostate predicate KeepsUp(appends: bool)
      reads this`ledger
    {
      old(ledger.prompt) && appends ==> ledger.prompt
    }

    twostate predicate Untouched()
      reads this, store
    {
      unchanged(this) && unchanged(store)
    }

    method StartStage(stageId: string, now: string, appends: bool) returns (error: Option<TransitionError>)
      requires Ready()
      modifies this`state, this`mirror, this`log, this`journal, this`ledger, store`events
      ensures Carried(Start(old(state), stageId, now), now) && error == Start(old(state), stageId, now).error
      ensures KeepsUp(appends) && (error.None? && appends ==> Agrees())
    {
      var s := state;
      var index := StageIndex(s.stages, stageId);
      if index == |s.stages| {
        return Some(UnknownStage(stageId));
      }
      var stage := s.stages[index];
      if stage.status == Active {
        return Some(AlreadyActive);
      }
      if stage.status == Complete {
        return Some(AlreadyComplete);
      }
      if AnyActive(s.stages) {
        return Some(AnotherActive);
      }
      if index > 0 && s.stages[index - 1].status != Complete {
        return Some(PreviousIncomplete(s.stages[index - 1].stageId));
      }
      stage := stage.(status := Active);
      stage := stage.(enteredAt := OrNow(stage.enteredAt, now));
      stage := stage.(blockedReason := None);
      s := s.(stages := s.stages[index := stage]);
      s := s.(currentStageId := Some(stage.stageId));
      StartLogsItself(state, stageId, now);
      error := Commit(s, LogEntry(StageStarted, stageId, None), now, appends, None);
    }

    /** `save` followed by `log_transition`, raising `raised` at the end if there is one. */
    method Commit(s: PipelineState, entry: LogEntry, now: string, appends: bool, raised: Option<TransitionError>)
      returns (error: Option<TransitionError>)
      requires ReadLog(origin, log) == ViewOf(state) && Recorded(log) && StoreIsOurs() && StoreFollows()
      requires s.projectId == state.projectId && s.rest == state.rest
      requires ReadLog(ViewOf(state), [entry]) == ViewOf(s)
      modifies this`state, this`mirror, this`log, this`journal, this`ledger, store`events
      ensures state == s.(updatedAt := now, lastEventId := Some(|log|))
      ensures log == old(log) + [entry]
      ensures Ready() && old(journal) <= journal
      ensures KeepsUp(appends) && (appends ==> Agrees()) && error == raised
    {
      ghost var full := log + [entry];
      OneAhead(origin, log, entry, state, s, journal);
      Save(s, now, appends, full);
      LogTransition(state, entry);
      error := raised;
    }

    method EvaluateGates(stageId: string)
      requires ReadLog(origin, log) == ViewOf(state) && Recorded(log) && StoreFollows()
      modifies this`log, this`journal
      ensures ReadLog(origin, log) == ViewOf(state) && log == old(log) + GateEvents(stageId)
      ensures Recorded(log) && StoreFollows() && old(journal) <= journal
    {
      AppendGateEvent(LogEntry(GateStarted, stageId, None));
      AppendGateEvent(LogEntry(GateCompleted, stageId, None));
    }

    method AppendGateEvent(entry: LogEntry)
      requires ReadLog(origin, log) == ViewOf(state) && Recorded(log) && StoreFollows()
      requires entry.kind in {GateStarted, GateCompleted}
      modifies this`log, this`journal
      ensures ReadLog(origin, log) == ViewOf(state) && log == old(log) + [entry]
      ensures Recorded(log) && StoreFollows() && old(journal) <= journal
    {
      ghost var full := log + [entry];
      GateEventSaysNothing(origin, log, entry);
      JournalKeepsUp(journal, origin, log, full);
      LogFollows(Now(), ledger, full);
      AppendLog(entry, full);
    }

    /** `complete_stage`, reflection included. */
    method CompleteStage(stageId: string, checks: Checks, now: string, appends: bool)
      returns (error: Option<TransitionError>)
      requires Ready()
      modifies this`state, this`mirror, this`log, this`journal, this`ledger, store`events
      ensures Carried(Completion(old(state), stageId, checks, now), now)
      ensures error == Completion(old(state), stageId, checks, now).error
      ensures GatesDecide(old(state).stages, stageId, checks, state.stages, error)
      ensures KeepsUp(appends) && (Completion(old(state), stageId, checks, now).entries != [] && appends ==> Agrees())
    {
      var s := state;
      var index := StageIndex(s.stages, stageId);
      if index == |s.stages| {
        return Some(UnknownStage(stageId));
      }
      var stage := s.stages[index];
      if stage.status != Active {
        return Some(NotActive);
      }
      ghost var after := Completion(state, stageId, checks, now);
      CompletionFollowsGates(state, index, checks, now);
      CompletionEndsWithOneEntry(state, stageId, checks, now);
      error := CompleteActive(index, checks, now, appends, after);
    }

    /** `complete_stage` of the active stage at `index`: its gates, then the transition to `after`. */
    method CompleteActive(index: nat, checks: Checks, now: string, appends: bool, ghost after: Outcome)
      returns (error: Option<TransitionError>)
      requires Ready() && index < |state.stages| && index == StageIndex(state.stages, state.stages[index].stageId)
      requires state.stages[index].status == Active
      requires after == Completion(state, state.stages[index].stageId, checks, now)
      requires |after.entries| == 3 && after.entries == GateEvents(state.stages[index].stageId) + [after.entries[2]]
      requires ReadLog(ViewOf(state), [after.entries[2]]) == ViewOf(after.state)
      modifies this`state, this`mirror, this`log, this`journal, this`ledger, store`events
      ensures state == after.state.(updatedAt := now, lastEventId := Some(|log|))
      ensures log == old(log) + after.entries && error == after.error
      ensures Ready() && old(journal) <= journal && KeepsUp(appends) && (appends ==> Agrees())
    {
      EvaluateGates(state.stages[index].stageId);
      error := CommitCompletion(index, checks, now, appends, after);
    }

    /** The rest of `complete_stage`, once the gates of the active stage at `index` are evaluated. */
    method CommitCompletion(index: nat, checks: Checks, now: string, appends: bool, ghost after: Outcome)
      returns (error: Option<TransitionError>)
      requires index < |state.stages| && index == StageIndex(state.stages, state.stages[index].stageId)
      requires state.stages[index].status == Active
      requires ReadLog(origin, log) == ViewOf(state) && Recorded(log) && StoreIsOurs() && StoreFollows()
      requires after == Completion(state, state.stages[index].stageId, checks, now)
      requires |after.entries| == 3 && ReadLog(ViewOf(state), [after.entries[2]]) == ViewOf(after.state)
      modifies this`state, this`mirror, this`log, this`journal, this`ledger, store`events
      ensures state == after.state.(updatedAt := now, lastEventId := Some(|log|))
      ensures log == old(log) + [after.entries[2]] && error == after.error
      ensures Ready() && old(journal) <= journal && KeepsUp(appends) && (appends ==> Agrees())
    {
      var s, stage := state, state.stages[index];
      var stageId := stage.stageId;
      s := s.(gates := s.gates[stageId := checks.results]);
      var kind, raised := StageCompleted, None;
      if AnyBlocking(checks.results) {
        stage := stage.(status := Blocked, blockedReason := Some(BlockReason(checks.results)));
        kind, raised := StageBlocked, Some(BlockedByGates(BlockReason(checks.results)));
      } else {
        stage := stage.(status := Complete, completedAt := Some(now), blockedReason := None);
        s := s.(currentStageId := None);
        raised := if checks.reflectionFails then Some(ReflectionFailed) else None;
      }
      s := s.(stages := s.stages[index := stage]);
      error := Commit(s, LogEntry(kind, stageId, None), now, appends, raised);
    }

    /** `advance`; its last save is the one whose append decides agreement. */
    method AdvancePipeline(checks: Checks, now: string, appendsFirst: bool, appendsLast: bool)
      returns (error: Option<TransitionError>)
      requires Ready()
      modifies this`state, this`mirror, this`log, this`journal, this`ledger, store`events
      ensures Carried(Advance(old(state), checks, now), now) && error == Advance(old(state), checks, now).error
      ensures KeepsUp(appendsFirst && appendsLast)
              && (Advance(old(state), checks, now).entries != [] && appendsFirst && appendsLast ==> Agrees())
    {
      var s := state;
      match s.currentStageId
      case None =>
        var next := FirstNotStarted(s.stages);
        if next == |s.stages| {
          return Some(PipelineComplete);
        }
        error := StartStage(s.stages[next].stageId, now, appendsLast);
      case Some(current) =>
        var index := StageIndex(s.stages, current);
        if index == |s.stages| {
          return Some(UnknownStage(current));
        }
        if s.stages[index].status != Active {
          return Some(CurrentNotActive);
        }
        ghost var outcome := CompleteAndGoOn(s, current, index, checks, now);
        error := CompleteAndContinue(current, index, checks, now, appendsFirst, appendsLast, outcome);
    }

    /** The rest of `advance`, once the current stage is known to be active at `index`. */
    method CompleteAndContinue(
      current: string, index: nat, checks: Checks, now: string, appendsFirst: bool, appendsLast: bool,
      ghost outcome: Outcome)
      returns (error: Option<TransitionError>)
      requires Ready()
      requires index < |state.stages| && outcome == CompleteAndGoOn(state, current, index, checks, now)
      modifies this`state, this`mirror, this`log, this`journal, this`ledger, store`events
      ensures Carried(outcome, now) && error == outcome.error && KeepsUp(appendsFirst && appendsLast)
      ensures outcome.entries != [] && appendsFirst && appendsLast ==> Agrees()
    {
      ghost var before := state;
      var following := if index + 1 < |state.stages| then Some(state.stages[index + 1].stageId) else None;
      error := CompleteStage(current, checks, now, appendsFirst);
      if error.None? {
        ghost var middle, logged, images := state, log, journal;
        error := StartFollowing(following, now, appendsLast);
        TwoHalves(before, current, index, checks, now, middle, logged, state, log, old(log), following);
        PrefixTransitive(old(journal), images, journal);
      }
    }

    /** The second half of `advance`: start the following stage, or save once more when there is none. */
    method StartFollowing(following: Option<string>, now: string, appends: bool)
      returns (error: Option<TransitionError>)
      requires Ready() && state.currentStageId.None? && state.updatedAt == now
      modifies this`state, this`mirror, this`log, this`journal, this`ledger, store`events
      ensures error == Followed(old(state), following, now).error
      ensures state == if Followed(old(state), following, now).entries == [] then old(state)
                       else Followed(old(state), following, now).state.(updatedAt := now, lastEventId := Some(|log|))
      ensures log == old(log) + Followed(old(state), following, now).entries
      ensures Ready() && old(journal) <= journal
      ensures KeepsUp(appends) && (old(Agrees()) && appends ==> Agrees())
    {
      match following
      case None =>
        SaveFinished(now, appends);
        error := None;
      case Some(stageId) =>
        error := StartStage(stageId, now, appends);
    }

    /** The save at the end of the last stage: no stage is current, nothing is logged. */
    method SaveFinished(now: string, appends: bool)
      requires Ready() && state.currentStageId.None?
      modifies this`state, this`mirror, this`journal, this`ledger, store`events
      ensures state == old(state).(updatedAt := now)
      ensures Ready() && old(journal) <= journal
      ensures KeepsUp(appends) && (appends ==> Agrees())
    {
      var completed := state.(currentStageId := None);
      Save(completed, now, appends, log);
      assert ViewOf(state) == ViewOf(completed);
    }

    /** `override_stage`. */
    method OverrideStage(stageId: string, reason: string, now: string, appends: bool)
      returns (error: Option<TransitionError>)
      requires Ready()
      modifies this`state, this`mirror, this`log, this`journal, this`ledger, store`events
      ensures Carried(Override(old(state), stageId, reason, now), now)
      ensures error == Override(old(state), stageId, reason, now).error
      ensures KeepsUp(appends) && (error.None? && appends ==> Agrees())
    {
      if Strip(reason) == "" {
        return Some(ReasonRequired);
      }
      var s := state;
      if StageIndex(s.stages, stageId) == |s.stages| {
        return Some(UnknownStage(stageId));
      }
      var stages := s.stages;
      for i := 0 to |stages|
        invariant |stages| == |s.stages|
        invariant forall j :: 0 <= j < |stages| ==>
                    stages[j] == if j < i then OverriddenStage(s.stages[j], stageId, now) else s.stages[j]
      {
        var stage := stages[i];
        if stage.stageId == stageId {
          stage := stage.(status := Active);
          stage := stage.(enteredAt := OrNow(stage.enteredAt, now));
          stage := stage.(blockedReason := None);
          stages := stages[i := stage];
        } else if stage.status == Active {
          stage := stage.(status := Blocked);
          stage := stage.(blockedReason := Some("Superseded by override to `" + stageId + "`."));
          stages := stages[i := stage];
        }
      }
      assert stages == Overridden(s.stages, stageId, now);
      s := s.(stages := stages, currentStageId := Some(stageId));
      OverrideLogsItself(state, stageId, reason, now);
      error := Commit(s, LogEntry(StageOverride, stageId, Some(Strip(reason))), now, appends, None);
    }

    // ----- runs -----

    method Perform(call: Call, now: string, appends: bool) returns (error: Option<TransitionError>)
      requires Ready()
      modifies this`state, this`mirror, this`log, this`journal, this`ledger, store`events
      ensures Carried(Apply(old(state), call, now), now) && error == Apply(old(state), call, now).error
      ensures KeepsUp(appends)
      ensures appends && (Apply(old(state), call, now).entries != [] || old(Agrees())) ==> Agrees()
    {
      match call
      case StartStage(stageId) => error := StartStage(stageId, now, appends);
      case CompleteStage(stageId, checks) => error := CompleteStage(stageId, checks, now, appends);
      case AdvancePipeline(checks) => error := AdvancePipeline(checks, now, appends, appends);
      case OverrideStage(stageId, reason) => error := OverrideStage(stageId, reason, now, appends);
    }

    /** One call of a run whose state, stamps aside, is `target`; returns where the run goes and what it logs. */
    method PerformNext(call: Call, now: string, appends: bool, ghost target: PipelineState)
      returns (ghost next: PipelineState, ghost entries: seq<LogEntry>)
      requires Ready() && SameState(state, target)
      modifies this`state, this`mirror, this`log, this`journal, this`ledger, store`events
      ensures next == Apply(target, call, now).state && entries == Apply(target, call, now).entries
      ensures SameState(state, next) && log == old(log) + entries
      ensures Ready() && KeepsUp(appends)
      ensures appends && (entries != [] || old(Agrees())) ==> Agrees()
    {
      ApplyIgnoresStamps(state, target, call, now);
      next, entries := Apply(target, call, now).state, Apply(target, call, now).entries;
      var error := Perform(call, now, appends);
    }

    /** Any sequence of calls; `appends` says of each whether its store appends succeed. */
    method PerformAll(calls: Calls, appends: nat -> bool)
      requires Ready()
      modifies this`state, this`mirror, this`log, this`journal, this`ledger, store`events
      ensures SameState(state, Run(old(state), calls))
      ensures Ready() && KeepsUp(forall k: nat :: appends(k))
      ensures RunLog(old(state), calls) != [] && (forall k: nat :: appends(k)) ==>
                Agrees() && (RestIsApart(state) ==> LoadsBack())
    {
      ghost var initial, target, told := state, state, [];
      for i := 0 to |calls|
        invariant Reached(initial, calls[..i], target, told)
        invariant SameState(state, target) && Ready()
        invariant KeepsUp(forall k: nat :: appends(k))
        invariant told != [] && (forall k: nat :: appends(k)) ==> Agrees()
      {
        ghost var next, entries := PerformNext(calls[i].0, calls[i].1, appends(i), target);
        ReachedNext(initial, calls, i, target, told, next, entries);
        target, told := next, told + entries;
      }
      assert calls[..|calls|] == calls;
      AgreesLoadsBack();
    }
  }

  /** The run of these calls ends in `target` and has logged `told`. */
  ghost predicate Reached(initial: PipelineState, calls: Calls, target: PipelineState, told: seq<LogEntry>) {
    target == Run(initial, calls) && told == RunLog(initial, calls)
  }

  lemma ReachedNext(initial: PipelineState, calls: Calls, i: nat, target: PipelineState, told: seq<LogEntry>,
                    next: PipelineState, entries: seq<LogEntry>)
    requires i < |calls| && Reached(initial, calls[..i], target, told)
    requires next == Apply(target, calls[i].0, calls[i].1).state
    requires entries == Apply(target, calls[i].0, calls[i].1).entries
    ensures Reached(initial, calls[..i + 1], next, told + entries)
  {
    assert calls[..i + 1][..i] == calls[..i];
  }

  /** After the gate events, one entry tells the whole transition. */
  lemma CompletionEndsWithOneEntry(s: PipelineState, stageId: string, checks: Checks, now: string)
    ensures var after := Completion(s, stageId, checks, now);
            after.entries != [] ==>
              && |after.entries| == 3 && after.entries == GateEvents(stageId) + [after.entries[2]]
              && ReadLog(ViewOf(s), [after.entries[2]]) == ViewOf(after.state)
  {
    var after := Completion(s, stageId, checks, now);
    if after.entries != [] {
      CompletionLogsItself(s, stageId, checks, now);
      GateEventsSayNothing(ViewOf(s), stageId);
      ReadLogSplits(ViewOf(s), GateEvents(stageId), [after.entries[2]]);
    }
  }

  /** An active stage ends blocked, with an error, if some result blocks, and complete otherwise. */
  ghost predicate GatesDecide(
    before: seq<StageState>, stageId: string, checks: Checks, after: seq<StageState>, error: Option<TransitionError>)
  {
    var i := StageIndex(before, stageId);
    i < |before| && before[i].status == Active ==>
      && i < |after|
      && if exists k :: 0 <= k < |checks.results| && checks.results[k].blocking
         then after[i].status == Blocked && error.Some? && error.value.BlockedByGates?
         else after[i].status == Complete && (error.Some? ==> error.value == ReflectionFailed)
  }

  ghost predicate SameOutcome(a: Outcome, b: Outcome) {
    SameState(a.state, b.state) && a.entries == b.entries && a.error == b.error
  }

  lemma CompletionIgnoresStamps(a: PipelineState, b: PipelineState, stageId: string, checks: Checks, now: string)
    requires SameState(a, b)
    ensures SameOutcome(Completion(a, stageId, checks, now), Completion(b, stageId, checks, now))
  {
  }

  lemma GoOnIgnoresStamps(a: PipelineState, b: PipelineState, current: string, i: nat, checks: Checks, now: string)
    requires SameState(a, b) && i < |a.stages|
    ensures SameOutcome(CompleteAndGoOn(a, current, i, checks, now), CompleteAndGoOn(b, current, i, checks, now))
  {
    CompletionIgnoresStamps(a, b, current, checks, now);
    if i + 1 < |a.stages| {
      var x, y := Completion(a, current, checks, now).state, Completion(b, current, checks, now).state;
      StartIgnoresStamps(x, y, a.stages[i + 1].stageId, now);
    }
  }

  lemma AdvanceIgnoresStamps(a: PipelineState, b: PipelineState, checks: Checks, now: string)
    requires SameState(a, b)
    ensures SameOutcome(Advance(a, checks, now), Advance(b, checks, now))
  {
    match a.currentStageId
    case None =>
      var i := FirstNotStarted(a.stages);
      if i < |a.stages| { StartIgnoresStamps(a, b, a.stages[i].stageId, now); }
    case Some(current) =>
      var i := StageIndex(a.stages, current);
      if i < |a.stages| { GoOnIgnoresStamps(a, b, current, i, checks, now); }
  }

  /** Time and event stamps decide nothing. */
  lemma ApplyIgnoresStamps(a: PipelineState, b: PipelineState, call: Call, now: string)
    requires SameState(a, b)
    ensures SameOutcome(Apply(a, call, now), Apply(b, call, now))
  {
    match call
    case StartStage(stageId) => StartIgnoresStamps(a, b, stageId, now);
    case CompleteStage(stageId, checks) => CompletionIgnoresStamps(a, b, stageId, checks, now);
    case AdvancePipeline(checks) => AdvanceIgnoresStamps(a, b, checks, now);
    case OverrideStage(_, _) =>
  }

  /** What starting the following stage, if there is one, comes to. */
  function Followed(s: PipelineState, following: Option<string>, now: string): Outcome {
    match following
    case None => Outcome(s, [], None)
    case Some(stageId) => Start(s, stageId, now)
  }

  /** A completion and what follows it, each with its stamps, make up the whole of `advance` with the last stamps. */
  lemma TwoHalves(
    s: PipelineState, current: string, index: nat, checks: Checks, now: string,
    middle: PipelineState, logged: seq<LogEntry>, final: PipelineState, log: seq<LogEntry>, begun: seq<LogEntry>,
    following: Option<string>)
    requires index < |s.stages| && Completion(s, current, checks, now).error.None?
    requires following == if index + 1 < |s.stages| then Some(s.stages[index + 1].stageId) else None
    requires middle == Completion(s, current, checks, now).state.(updatedAt := now, lastEventId := Some(|logged|))
    requires logged == begun + Completion(s, current, checks, now).entries
    requires log == logged + Followed(middle, following, now).entries
    requires final == if Followed(middle, following, now).entries == [] then middle
                      else Followed(middle, following, now).state.(updatedAt := now, lastEventId := Some(|log|))
    ensures var all := CompleteAndGoOn(s, current, index, checks, now);
            && all.error == Followed(middle, following, now).error && all.entries != []
            && log == begun + all.entries
            && final == all.state.(updatedAt := now, lastEventId := Some(|log|))
  {
    if index + 1 < |s.stages| {
      StartIgnoresStamps(middle, Completion(s, current, checks, now).state, s.stages[index + 1].stageId, now);
    }
  }

  lemma StartIgnoresStamps(a: PipelineState, b: PipelineState, stageId: string, now: string)
    requires SameState(a, b)
    ensures SameOutcome(Start(a, stageId, now), Start(b, stageId, now))
  {
  }

  // ----- the dual write -----

  /** A document that agrees with a state but for the last event id holds that state but for it. */
  lemma AgreeingDocumentLoads(d: Dict, s: PipelineState)
    requires SameButLastEvent(d, Dump(s)) && RestIsApart(s)
    ensures Load(d[LAST_EVENT := Null]) == Some(s.(lastEventId := None))
  {
    LoadDump(s.(lastEventId := None));
    SameEntryChange(d, Dump(s));
    DumpWithoutStamp(s);
  }

  lemma DumpWithoutStamp(s: PipelineState)
    ensures Dump(s.(lastEventId := None)) == Dump(s)[LAST_EVENT := Null]
  {
  }

  lemma SameEntryChange(a: Dict, b: Dict)
    requires SameButLastEvent(a, b)
    ensures a[LAST_EVENT := Null] == b[LAST_EVENT := Null]
  {
    assert forall key :: key in a && key != LAST_EVENT ==> key in a - {LAST_EVENT};
    assert forall key :: key in b && key != LAST_EVENT ==> key in b - {LAST_EVENT};
  }

  /** Stamping the event id changes that one entry of the document. */
  lemma StampKeepsDocument(s: PipelineState, eventId: nat)
    ensures var stamped := s.(lastEventId := Some(eventId));
            Dump(stamped).Keys == Dump(s).Keys && SameButLastEvent(Dump(s), Dump(stamped))
  {
    var stamped := s.(lastEventId := Some(eventId));
    SameKeys(s, stamped);
    assert forall key :: key in Dump(s) && key != LAST_EVENT ==> Dump(s)[key] == Dump(stamped)[key];
  }

  /** A save that begins leaves the store at most one save behind. */
  lemma SaveBegins(journal: seq<Image>, image: Image, ledger: Ledger, saved: PipelineState)
    requires AllFollow(journal, ledger) && Follows(image, ledger, 0) && image.saves == |ledger.saves|
    ensures var grown := ledger.(saves := ledger.saves + [Dump(saved)]);
            AllFollow(journal, grown) && forall log :: Follows(Image(saved, log, image.replay, |grown.saves|), grown, 1)
  {
    var grown := ledger.(saves := ledger.saves + [Dump(saved)]);
    forall i | 0 <= i < |journal| ensures Follows(journal[i], grown, 1) {
      var m: nat :| m <= journal[i].saves && HoldsSave(journal[i].replay, ledger, m)
                    && (ledger.prompt ==> journal[i].saves <= m + 1);
      assert HoldsSave(journal[i].replay, grown, m);
    }
    var m: nat :| m <= image.saves && HoldsSave(image.replay, ledger, m) && (ledger.prompt ==> image.saves <= m);
    assert HoldsSave(image.replay, grown, m);
  }

  /** Once an append is lost nothing more is claimed than that some save is held. */
  lemma LostAppend(journal: seq<Image>, image: Image, ledger: Ledger)
    requires AllFollow(journal, ledger) && Follows(image, ledger, 1)
    ensures var late := ledger.(prompt := false); AllFollow(journal, late) && Follows(image, late, 0)
  {
    var late := ledger.(prompt := false);
    forall other, lag: nat | Follows(other, ledger, 1) ensures Follows(other, late, lag) {
      var m: nat :| m <= other.saves && HoldsSave(other.replay, ledger, m);
      assert HoldsSave(other.replay, late, m);
    }
  }

  /** A longer log keeps every image in the journal behind by no more than before. */
  lemma JournalKeepsUp(journal: seq<Image>, origin: View, log: seq<LogEntry>, full: seq<LogEntry>)
    requires log <= full && AllBehind(origin, journal, log)
    ensures AllBehind(origin, journal, full)
  {
    forall i | 0 <= i < |journal| ensures BehindByAtMostOne(origin, journal[i].state, journal[i].log, full) {
      var n := |journal[i].log| + 1;
      if n <= |log| { assert full[..n] == log[..n]; }
    }
  }

  /** Saving `s` runs one entry ahead of the log; logging the entry catches up. */
  lemma OneAhead(
    origin: View, log: seq<LogEntry>, entry: LogEntry, state: PipelineState, s: PipelineState, journal: seq<Image>)
    requires ReadLog(origin, log) == ViewOf(state) && ReadLog(ViewOf(state), [entry]) == ViewOf(s)
    requires AllBehind(origin, journal, log)
    ensures var full := log + [entry];
            ReadLog(origin, full) == ViewOf(s) && AllBehind(origin, journal, full)
            && BehindByAtMostOne(origin, s, log, full)
  {
    var full := log + [entry];
    ReadLogSplits(origin, log, [entry]);
    assert full[..|log| + 1] == full;
    JournalKeepsUp(journal, origin, log, full);
  }

  lemma PrefixTransitive(a: seq<Image>, b: seq<Image>, c: seq<Image>)
    requires a <= b && b <= c
    ensures a <= c
  {
  }

  lemma JournalGrows(origin: View, journal: seq<Image>, image: Image, full: seq<LogEntry>, ledger: Ledger)
    requires AllBehind(origin, journal, full) && AllFollow(journal, ledger)
    requires BehindByAtMostOne(origin, image.state, image.log, full) && Follows(image, ledger, 1)
    ensures AllBehind(origin, journal + [image], full) && AllFollow(journal + [image], ledger)
  {
  }

  /** A store that holds the latest save follows. */
  lemma LatestFollows(image: Image, ledger: Ledger)
    requires image.saves == |ledger.saves| > 0 && SameButLastEvent(Dump(image.state), ledger.saves[image.saves - 1])
    requires HoldsSave(image.replay, ledger, image.saves)
    ensures Follows(image, ledger, 0) && Follows(image, ledger, 1)
  {
  }

  /** The log has no part in whether the store follows. */
  lemma LogFollows(image: Image, ledger: Ledger, log: seq<LogEntry>)
    requires Follows(image, ledger, 0)
    ensures Follows(image.(log := log), ledger, 0) && Follows(image.(log := log), ledger, 1)
  {
    var m: nat :| m <= image.saves && HoldsSave(image.replay, ledger, m) && (ledger.prompt ==> image.saves <= m);
    assert HoldsSave(image.(log := log).replay, ledger, m);
  }

  /** Neither has the last event id. */
  lemma StampFollows(image: Image, ledger: Ledger, log: seq<LogEntry>, stamped: PipelineState)
    requires Follows(image, ledger, 0) && SameButLastEvent(Dump(image.state), Dump(stamped))
    ensures forall s :: s in {image.state, stamped} ==>
              Follows(image.(log := log, state := s), ledger, 0) && Follows(image.(log := log, state := s), ledger, 1)
  {
    LogFollows(image, ledger, log);
    LogFollows(image.(state := stamped), ledger, log);
  }

  lemma GateEventSaysNothing(origin: View, log: seq<LogEntry>, entry: LogEntry)
    requires entry.kind in {GateStarted, GateCompleted}
    ensures ReadLog(origin, log + [entry]) == ReadLog(origin, log)
  {
    assert (log + [entry])[..|log|] == log;
  }

  lemma SameKeys(a: PipelineState, b: PipelineState)
    requires a.rest.Keys == b.rest.Keys
    ensures Dump(a).Keys == Dump(b).Keys
  {
    assert Dump(a).Keys == a.rest.Keys + STATE_KEYS;
    assert Dump(b).Keys == b.rest.Keys + STATE_KEYS;
  }

  /** The row holds a whole state document with exactly these keys. */
  ghost predicate HoldsDocument(row: StoredEvent, keys: set<string>) {
    && row.payload.Keys == {"state"}
    && row.payload["state"].Obj?
    && row.payload["state"].fields.Keys == keys
  }

  lemma {:induction false} FoldOfDocuments(state: Dict, rows: seq<StoredEvent>, keys: set<string>)
    requires forall k :: 0 <= k < |rows| ==> HoldsDocument(rows[k], keys)
    ensures Fold(state, rows).Some? && Fold(state, rows).value.Keys <= state.Keys + keys
    decreases |rows|
  {
    if rows != [] {
      assert HoldsDocument(rows[0], keys);
      FoldOfDocuments(state + rows[0].payload["state"].fields, rows[1..], keys);
    }
  }

  ghost predicate AllDocuments(rows: seq<StoredEvent>, keys: set<string>) {
    forall k :: 0 <= k < |rows| ==> HoldsDocument(rows[k], keys)
  }

  /** Documents with the same keys, merged in order, leave the last one. */
  lemma LastDocumentWins(rows: seq<StoredEvent>, row: StoredEvent, document: Dict)
    requires AllDocuments(rows, document.Keys) && row.payload == map["state" := Obj(document)]
    ensures Fold(map[], rows + [row]) == Some(document)
  {
    FoldOfDocuments(map[], rows, document.Keys);
    FoldSplits(map[], rows, [row]);
    var before := Fold(map[], rows).value;
    assert before + document == document;
    assert [row][1..] == [] && Fold(document, []) == Some(document);
  }

  lemma ReplayOfGrownStream(rows: seq<StoredEvent>, row: StoredEvent, snapshot: Option<Snapshot>, document: Dict)
    requires AllDocuments(rows, document.Keys) && row.payload == map["state" := Obj(document)]
    requires Numbered(rows + [row]) && SnapshotTrue(rows, snapshot)
    ensures SnapshotTrue(rows + [row], snapshot) && AllDocuments(rows + [row], document.Keys)
    ensures ReplaySpec(rows + [row], snapshot) == Rebuilt(document)
  {
    SnapshotStaysTrue(rows, [row], snapshot);
    LastDocumentWins(rows, row, document);
    SnapshotDoesNotMatter(rows + [row], snapshot);
  }

  /** One more row holding a whole document: the replay is that document, whatever was appended or lost before. */
  lemma SavedRowReplaysToItself(
    rows: seq<StoredEvent>, snapshot: Option<Snapshot>, document: Dict, events: seq<StoredEvent>, stream: string)
    requires WellVersioned(events) && rows == StreamOf(events, stream) && SnapshotTrue(rows, snapshot)
    requires AllDocuments(rows, document.Keys)
    ensures var after := Appended(events, stream, "StateSaved", map["state" := Obj(document)]);
            var grown := StreamOf(after, stream);
            && WellVersioned(after) && SnapshotTrue(grown, snapshot)
            && AllDocuments(grown, document.Keys)
            && ReplaySpec(grown, snapshot) == Rebuilt(document)
  {
    var payload: Dict := map["state" := Obj(document)];
    var after := Appended(events, stream, "StateSaved", payload);
    var row := after[|events|];
    AppendKeepsVersions(events, stream, "StateSaved", payload);
    assert StreamOf(after, stream) == rows + [row] by { StreamOfAppended(events, row, stream); }
    assert Numbered(StreamOf(after, stream));
    ReplayOfGrownStream(rows, row, snapshot, document);
  }
}
