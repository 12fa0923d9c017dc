/** Saving a room's queue and rebuilding the room from it. */
module RoomRestore {
  import opened Util
  import opened Video
  import opened RoleLattice
  import opened RoomModel
  import opened RoomRuns
  import opened RoomTheorems
  import RoomQueueTheorems
  import VideoQueue

  datatype Behavior = Never | Prompt | Always

  /** What the constructor is given: a snapshot of a running room, or a row of the database. */
  datatype Saved = Saved(
    mode: QueueMode, gatePauses: bool, grants: Masks, behavior: Behavior, prevQueue: Option<seq<Item>>,
    source: Option<Item>, queue: seq<Item>, playing: bool, position: real, anchor: Option<int>, speed: real,
      resume: bool)

  /** A database row remembers settings and the queue snapshot, and nothing of the playback. */
  predicate IsRow(o: Saved) {
    o.source.None? && o.queue == [] && !o.playing && o.position == 0.0 && o.anchor.None? && o.speed == 1.0 && !o.resume
  }

  /** The constructor puts the stored queue back only into an idle room without one, when it is told to. */
  predicate BringsBack(o: Saved) {
    o.source.None? && o.queue == [] && o.behavior == Always && o.prevQueue.Some?
  }

  function Rebuilt(now: int, o: Saved, fromDatabase: bool): State {
    var queue := if BringsBack(o) then o.prevQueue.value else o.queue;
    var idle := State(
      now, [], o.grants, o.gatePauses, o.mode, o.source, queue, map[], o.playing, o.position, o.anchor, o.speed,
      None, None, {}, None, None, None, None, 0, o.resume, BringsBack(o) || fromDatabase,
      History(0.0, o.speed, [], [], 0, now, 0));
    idle.(history := idle.history.(ledger := RealPosition(idle)))
  }

  /** The stored queue that is still on offer after the rebuild. */
  function Offered(o: Saved): Option<seq<Item>> {
    if o.behavior == Never || BringsBack(o) then None else o.prevQueue
  }

  /** What is saved of a room: the current item at its position, then the queue, else the previous snapshot. */
  function QueueSnapshot(s: State, prevQueue: Option<seq<Item>>): Option<seq<Item>> {
    var items := (if s.source.Some? then [s.source.value.(startAt := Some(RealPosition(s)))] else []) + s.queue;
    if items != [] then Some(items) else prevQueue
  }

  /** Every rebuilt room is one the run theorems start from, unless its own snapshot contradicts itself. */
  lemma RebuiltIsInitial(now: int, o: Saved, fromDatabase: bool)
    requires o.playing ==> o.anchor.Some? && !o.resume
    ensures Initial(Rebuilt(now, o, fromDatabase))
  {
  }

  /** A rebuilt room has the settings it was saved with, its clock where it was, and nobody in it. */
  lemma RebuiltKeepsSettings(now: int, o: Saved, fromDatabase: bool)
    ensures var s := Rebuilt(now, o, fromDatabase);
            && s.mode == o.mode && s.gatePauses == o.gatePauses && s.grants == o.grants && s.speed == o.speed
            && s.source == o.source && s.playing == o.playing && s.position == o.position && s.anchor == o.anchor
            && s.resume == o.resume && s.users == [] && s.votes == map[] && s.now == now
            && (o.source.Some? || o.queue != [] ==> s.queue == o.queue)
            && s.restored == (fromDatabase || BringsBack(o))
  {
  }

  // ---------------------------------------------------------------- before the first tick

  /** An idle room with a stored queue, no source and no votes, whoever is in it. */
  ghost predicate RebuiltFrom(s: State, items: seq<Item>) {
    && s.restored && s.queue == items && s.source.None? && s.votes == map[] && !s.playing && s.anchor.None?
    && s.boost.None? && s.gate.None? && s.round.None? && !s.resume && s.position == 0.0
  }

  /** A row comes back as its stored queue exactly when the room is told to restore it always. */
  lemma RestoresIff(now: int, o: Saved, items: seq<Item>)
    requires IsRow(o) && items != []
    ensures RebuiltFrom(Rebuilt(now, o, true), items) <==> o.behavior == Always && o.prevQueue == Some(items)
  {
  }

  /** The stored queue is in the room or on offer, exactly unless the room is told never to restore it. */
  lemma StoredQueueSurvivesIff(now: int, o: Saved, items: seq<Item>)
    requires IsRow(o) && o.prevQueue == Some(items) && items != []
    ensures Rebuilt(now, o, true).queue == items || Offered(o) == Some(items) <==> o.behavior != Never
  {
  }

  /** What viewers do before the first tick: come, go, report, be promoted. */
  predicate ByViewers(e: Event) {
    e.JoinEvent? || e.LeaveEvent? || e.UpdateUserEvent? || e.HoldEmptyEvent? || e.Promote?
  }

  lemma EvaluatedStaysRebuilt(s: State, items: seq<Item>)
    requires RebuiltFrom(s, items)
    ensures EvaluateGate(s) == s
  {
  }

  lemma LeaveStaysRebuilt(s: State, items: seq<Item>, id: ClientId)
    requires RebuiltFrom(s, items)
    ensures RebuiltFrom(Leave(s, id), items)
  {
    if FindUser(s.users, id).Some? {
      var gone := Gone(s, id);
      assert WithoutVoter(map[], id) == map[];
      assert RebuiltFrom(gone, items);
      EvaluatedStaysRebuilt(AfterLeave(gone, id), items);
    }
  }

  lemma ViewersStayRebuilt(s: State, items: seq<Item>, at: int, e: Event)
    requires RebuiltFrom(s, items) && ByViewers(e)
    ensures RebuiltFrom(Step(s, at, e), items)
  {
    var t := Elapse(s, at);
    match e
    case LeaveEvent(id) => LeaveStaysRebuilt(t, items, id);
    case UpdateUserEvent(id, status, prepared) =>
      var u := if status.None? then t else Reported(t, id, status.value);
      EvaluatedStaysRebuilt(t, items);
      EvaluatedStaysRebuilt(u, items);
    case _ =>
  }

  ghost predicate ViewersOnly(trace: seq<Timed>) {
    forall k :: 0 <= k < |trace| ==> ByViewers(trace[k].event)
  }

  lemma {:induction false} StaysRebuilt(s: State, items: seq<Item>, trace: seq<Timed>)
    requires RebuiltFrom(s, items) && ViewersOnly(trace)
    ensures RebuiltFrom(Run(s, trace), items)
  {
    if trace != [] {
      var prefix, last := trace[..|trace| - 1], trace[|trace| - 1];
      StaysRebuilt(s, items, prefix);
      ViewersStayRebuilt(Run(s, prefix), items, last.at, last.event);
    }
  }

  lemma NoVotesKeepOrder(items: seq<Item>)
    ensures VideoQueue.OrderedByVotes(items, map[]) == items
  {
    VideoQueue.EqualVotesKeepOrder(items, map[]);
  }

  /** The first tick hands over the first item, paused at its start, in every queue mode. */
  lemma FirstTickHandsOver(s: State, items: seq<Item>, skipTo: Option<real>)
    requires RebuiltFrom(s, items) && items != []
    ensures var t := Tick(s, skipTo);
            && t.source == Some(items[0]) && t.queue == items[1..]
            && !t.playing && t.position == items[0].startAt.GetOr(0.0) && RealPosition(t) == t.position
  {
    NoVotesKeepOrder(items[1..]);
    EvaluatedStaysRebuilt(s, items);
    var t := TickRound(s);
    assert t == Ticked(s) && TickBoost(t) == t;
    var d := DequeueNext(t);
    assert d.votes == map[];
  }

  /** A room loaded from the database, whoever came and went until its first tick, after that tick. */
  ghost function Reopened(now: int, o: Saved, trace: seq<Timed>, at: int, skipTo: Option<real>): State {
    Step(Run(Rebuilt(now, o, true), trace), at, TickEvent(skipTo))
  }

  /** It has the first stored item on, paused at its start, and the rest as its queue, in every queue mode. */
  lemma RebuiltRoomHandsOverPaused(
    now: int, o: Saved, items: seq<Item>, trace: seq<Timed>, at: int, skipTo: Option<real>)
    requires IsRow(o) && o.behavior == Always && o.prevQueue == Some(items) && items != [] && ViewersOnly(trace)
    ensures var t := Reopened(now, o, trace, at, skipTo);
            && t.source == Some(items[0]) && t.queue == items[1..]
            && !t.playing && t.position == items[0].startAt.GetOr(0.0) && RealPosition(t) == t.position
  {
    StaysRebuilt(Rebuilt(now, o, true), items, trace);
    FirstTickHandsOver(Elapse(Run(Rebuilt(now, o, true), trace), at), items, skipTo);
  }

  /**
   Saving a room that has a current item and reopening it brings back that item at its
   position, the same queue, and a paused room; saving again gives the same list.
   */
  lemma SnapshotRoundTrips(
    s: State, prevQueue: Option<seq<Item>>, now: int, o: Saved, trace: seq<Timed>, at: int, skipTo: Option<real>)
    requires s.source.Some? && IsRow(o) && o.behavior == Always && o.prevQueue == QueueSnapshot(s, prevQueue)
    requires ViewersOnly(trace)
    ensures var t := Reopened(now, o, trace, at, skipTo);
            && t.source == Some(s.source.value.(startAt := Some(RealPosition(s))))
            && RealPosition(t) == RealPosition(s) && t.queue == s.queue && !t.playing
            && QueueSnapshot(t, None) == QueueSnapshot(s, prevQueue)
  {
    var items := QueueSnapshot(s, prevQueue).value;
    assert items[1..] == s.queue;
    RebuiltRoomHandsOverPaused(now, o, items, trace, at, skipTo);
    var t := Reopened(now, o, trace, at, skipTo);
    assert [t.source.value.(startAt := Some(RealPosition(t)))] + t.queue == items;
  }

  /** A stored list is reproduced exactly when its first item already had a start position. */
  lemma SnapshotAgainIsSameIff(
    now: int, o: Saved, items: seq<Item>, prevQueue: Option<seq<Item>>, trace: seq<Timed>, at: int,
      skipTo: Option<real>)
    requires IsRow(o) && o.behavior == Always && o.prevQueue == Some(items) && items != [] && ViewersOnly(trace)
    ensures var t := Reopened(now, o, trace, at, skipTo);
            && (QueueSnapshot(t, prevQueue) == Some(items) <==> items[0].startAt.Some?)
            && QueueSnapshot(t, prevQueue)
               == Some([items[0].(startAt := Some(items[0].startAt.GetOr(0.0)))] + items[1..])
  {
    RebuiltRoomHandsOverPaused(now, o, items, trace, at, skipTo);
    var again := [items[0].(startAt := Some(items[0].startAt.GetOr(0.0)))] + items[1..];
    assert again[0] == items[0].(startAt := Some(items[0].startAt.GetOr(0.0)));
    assert items == [items[0]] + items[1..];
  }

  // ---------------------------------------------------------------- the flag that stays

  lemma RunSnoc(s: State, trace: seq<Timed>, next: Timed)
    ensures Run(s, trace + [next]) == Step(Run(s, trace), next.at, next.event)
    ensures LegalRun(s, trace + [next]) <==>
              LegalRun(s, trace) && next.at >= Run(s, trace).now && Legal(Run(s, trace), next.event)
  {
    assert (trace + [next])[..|trace|] == trace;
  }

  /** One viewer alone holds an undecided round for what is on; the restored flag is still set. */
  ghost predicate HeldAlone(s: State, viewer: Viewer, id: nat) {
    && s.users == [viewer] && MayPlayPause(s.grants, viewer) && s.restored && !s.playing && s.gate.None?
    && s.boost.None?
    && s.source.Some? && s.round.Some? && s.round.value.id == id && s.round.value.eligible == [viewer.id]
    && s.round.value.startAt.None? && s.round.value.video == s.source.value.video
    && s.position == 0.0 && s.round.value.position == 0.0
  }

  /** In a rebuilt room, playing an item that is not queued switches to it. */
  lemma PlayNowSwitches(s: State, item: Item, held: State)
    requires s.source.None? && VideoQueue.FindIndex(s.queue, item.video) < 0
    requires |s.queue| < VideoQueue.MAX_QUEUE_ITEMS && held == SwitchTo(s, s.queue, item)
    ensures held == Handle(s, PlayNowEvent(item))
  {
  }

  /** Alone there, putting on an item that can prepare holds a round, and the flag stays. */
  lemma SwitchHolds(s: State, items: seq<Item>, viewer: Viewer, item: Item)
    requires RebuiltFrom(s, items) && CanPrepareItem(item) && Preparers(s.users, s.grants) == [viewer.id]
    requires s.users == [viewer] && MayPlayPause(s.grants, viewer)
    ensures var held := SwitchTo(s, items, item);
            HeldAlone(held, viewer, s.nextRound) && held.now == s.now && held.mode == s.mode
  {
    var there := Reposition(SetSource(s.(queue := items), Some(item)), 0.0);
    assert there.source == Some(item) && there.boost.None? && there.position == 0.0 && there.nextRound == s.nextRound;
    assert EndBoost(there) == there;
  }

  /** The viewer's report starts playback at once, and still the flag stays. */
  lemma ReportStarts(s: State, viewer: Viewer, prepared: Prepared)
    requires HeldAlone(s, viewer, prepared.id) && prepared == Prepared(prepared.id, Some(0.0), false, true, true, None)
    ensures var r := UpdateUser(s, viewer.id, Some(Ready), Some(prepared));
            r.playing && r.restored && r.anchor.Some? && r.gate.None? && r.mode == s.mode && r.source == s.source
              && r.now == s.now
  {
    var ready := viewer.(status := Ready);
    var u := s.(users := [ready], exhausted := s.exhausted - {viewer.id});
    assert [viewer][1..] == [] && [ready][1..] == [] && [viewer.id][1..] == [];
    assert WithStatus([viewer], viewer.id, Ready) == [ready];
    var f := FinishPreparation(u, viewer.id, Some(Ready), Some(prepared));
    LoneReportStarts(u, ready, prepared);
    NobodyBuffers(f, ready);
  }

  lemma LoneReportStarts(u: State, ready: Viewer, prepared: Prepared)
    requires HeldAlone(u, ready, prepared.id) && prepared == Prepared(prepared.id, Some(0.0), false, true, true, None)
    ensures var f := FinishPreparation(u, ready.id, Some(Ready), Some(prepared));
            f.playing && f.restored && f.anchor == Some(u.now) && f.gate.None? && f.mode == u.mode
              && f.source == u.source
            && f.users == u.users && f.now == u.now
  {
    var r := u.round.value;
    assert [ready.id][1..] == [] && Live(r.eligible, u.users, u.grants) == [ready.id];
    assert [ready.id][0] == ready.id;
  }

  lemma NobodyBuffers(s: State, viewer: Viewer)
    requires s.users == [viewer] && viewer.status == Ready && s.gate.None?
    ensures EvaluateGate(s) == s
  {
    assert [viewer][1..] == [];
    assert Waiting([viewer], s.grants, s.exhausted) == [];
  }

  /** The requests that stall a reopened room: play now, the report that starts it, an added item, a skip, and play. */
  function Stalling(at: int, viewer: Viewer, item: Item, prepared: Prepared, queue: seq<Item>): seq<Timed> {
    [Timed(at, PlayNowEvent(item)), Timed(at, UpdateUserEvent(viewer.id, Some(Ready), Some(prepared))),
     Timed(at, EditQueue(queue)), Timed(at, SkipEvent), Timed(at, PlayEvent)]
  }

  /**
   A reopened room stalls: after play-now, a prepared start and the next advance it plays
   without an anchor, its position frozen, and a play request does not help.
   */
  lemma RestoredRoomStalls(
    s: State, items: seq<Item>, viewer: Viewer, item: Item, prepared: Prepared, at: int, queue: seq<Item>)
    requires RebuiltFrom(s, items) && s.users == [viewer] && MayPlayPause(s.grants, viewer) && at >= s.now
    requires CanPrepareItem(item) && VideoQueue.FindIndex(items, item.video) < 0 && |items| < VideoQueue.MAX_QUEUE_ITEMS
    requires prepared == Prepared(s.nextRound, Some(0.0), false, true, true, None)
    requires queue != [] && s.mode != Dj
    ensures var r := Run(s, Stalling(at, viewer, item, prepared, queue));
            LegalRun(s, Stalling(at, viewer, item, prepared, queue)) && r.playing && r.anchor.None?
  {
    var report := UpdateUserEvent(viewer.id, Some(Ready), Some(prepared));
    var s1 := Step(s, at, PlayNowEvent(item));
    var s2 := Step(s1, at, report);
    var s3 := Step(s2, at, EditQueue(queue));
    var s4 := Step(s3, at, SkipEvent);
    ReopenedStarts(s, items, viewer, item, prepared, at);
    SkipStalls(s2, at, queue);
    PlayStalls(s4, at);
    FiveSteps(s, at, Stalling(at, viewer, item, prepared, queue), s1, s2, s3, s4, Step(s4, at, PlayEvent));
  }

  lemma ReopenedStarts(s: State, items: seq<Item>, viewer: Viewer, item: Item, prepared: Prepared, at: int)
    requires RebuiltFrom(s, items) && s.users == [viewer] && MayPlayPause(s.grants, viewer)
    requires CanPrepareItem(item) && VideoQueue.FindIndex(items, item.video) < 0 && |items| < VideoQueue.MAX_QUEUE_ITEMS
    requires prepared == Prepared(s.nextRound, Some(0.0), false, true, true, None)
    ensures var s1 := Step(s, at, PlayNowEvent(item));
            var s2 := Step(s1, at, UpdateUserEvent(viewer.id, Some(Ready), Some(prepared)));
            && s1.now == at && s2.now == at
            && s2.playing && s2.restored && s2.anchor.Some? && s2.gate.None? && s2.mode == s.mode && s2.source.Some?
  {
    PlayNowStep(s, items, viewer, item, at);
    ReportStep(Step(s, at, PlayNowEvent(item)), viewer, prepared, at);
  }

  lemma PlayNowStep(s: State, items: seq<Item>, viewer: Viewer, item: Item, at: int)
    requires RebuiltFrom(s, items) && s.users == [viewer] && MayPlayPause(s.grants, viewer) && CanPrepareItem(item)
    requires VideoQueue.FindIndex(items, item.video) < 0 && |items| < VideoQueue.MAX_QUEUE_ITEMS
    ensures var t := Step(s, at, PlayNowEvent(item));
            HeldAlone(t, viewer, s.nextRound) && t.now == at && t.mode == s.mode
  {
    PlayNowHandledHolds(Elapse(s, at), items, viewer, item);
  }

  lemma PlayNowHandledHolds(s: State, items: seq<Item>, viewer: Viewer, item: Item)
    requires RebuiltFrom(s, items) && s.users == [viewer] && MayPlayPause(s.grants, viewer) && CanPrepareItem(item)
    requires VideoQueue.FindIndex(items, item.video) < 0 && |items| < VideoQueue.MAX_QUEUE_ITEMS
    ensures var held := Handle(s, PlayNowEvent(item));
            HeldAlone(held, viewer, s.nextRound) && held.now == s.now && held.mode == s.mode
  {
    assert [viewer][1..] == [];
    assert Preparers([viewer], s.grants) == [viewer.id];
    SwitchHolds(s, items, viewer, item);
    PlayNowSwitches(s, item, SwitchTo(s, items, item));
  }

  lemma ReportStep(s: State, viewer: Viewer, prepared: Prepared, at: int)
    requires HeldAlone(s, viewer, prepared.id) && prepared == Prepared(prepared.id, Some(0.0), false, true, true, None)
    ensures var t := Step(s, at, UpdateUserEvent(viewer.id, Some(Ready), Some(prepared)));
            t.now == at && t.playing && t.restored && t.anchor.Some? && t.gate.None? && t.mode == s.mode
              && t.source.Some?
  {
    ReportStarts(Elapse(s, at), viewer, prepared);
  }

  lemma PlayStalls(s: State, at: int)
    requires s.playing && s.anchor.None?
    ensures Step(s, at, PlayEvent).playing && Step(s, at, PlayEvent).anchor.None?
  {
    StallStays(Elapse(s, at));
  }

  lemma SkipStalls(s: State, at: int, queue: seq<Item>)
    requires s.playing && s.restored && s.anchor.Some? && s.gate.None? && s.mode != Dj && s.source.Some? && queue != []
    ensures var t := Step(Step(s, at, EditQueue(queue)), at, SkipEvent);
            t.playing && t.anchor.None? && t.now == at && Step(s, at, EditQueue(queue)).now == at
  {
    var added := Elapse(Step(s, at, EditQueue(queue)), at);
    assert added.playing && added.restored && added.anchor.Some? && added.gate.None? && added.queue == queue;
    RoomQueueTheorems.DequeueStallsIff(added);
    DequeueTakesNoTime(added);
  }

  lemma DequeueTakesNoTime(s: State)
    requires s.gate.None? && s.mode != Dj && s.restored && s.queue != []
    ensures DequeueNext(s).now == s.now
  {
    var requeued := if s.source.Some? && s.mode == Loop then s.queue + [s.source.value.Untrimmed()] else s.queue;
    assert Taken(s, requeued).now == s.now;
  }

  lemma StallStays(s: State)
    requires s.playing && s.anchor.None?
    ensures Play(s).playing && Play(s).anchor.None?
  {
  }

  /** Five events in a row, none of them a join. */
  lemma FiveSteps(s: State, at: int, trace: seq<Timed>, s1: State, s2: State, s3: State, s4: State, s5: State)
    requires |trace| == 5 && at >= s.now && s1.now == at && s2.now == at && s3.now == at && s4.now == at
    requires forall k :: 0 <= k < 5 ==> trace[k].at == at && !trace[k].event.JoinEvent?
    requires s1 == Step(s, at, trace[0].event) && s2 == Step(s1, at, trace[1].event)
    requires s3 == Step(s2, at, trace[2].event)
    requires s4 == Step(s3, at, trace[3].event) && s5 == Step(s4, at, trace[4].event)
    ensures Run(s, trace) == s5 && LegalRun(s, trace)
  {
    RunTo(s, trace, 0);
    RunTo(s, trace, 1);
    RunTo(s, trace, 2);
    RunTo(s, trace, 3);
    RunTo(s, trace, 4);
    assert trace[..5] == trace;
  }

  lemma RunTo(s: State, trace: seq<Timed>, n: nat)
    requires n < |trace|
    ensures Run(s, trace[..n + 1]) == Step(Run(s, trace[..n]), trace[n].at, trace[n].event)
    ensures LegalRun(s, trace[..n + 1]) <==>
              LegalRun(s, trace[..n]) && trace[n].at >= Run(s, trace[..n]).now
                && Legal(Run(s, trace[..n]), trace[n].event)
  {
    assert trace[..n + 1] == trace[..n] + [trace[n]];
    RunSnoc(s, trace[..n], trace[n]);
  }
}
