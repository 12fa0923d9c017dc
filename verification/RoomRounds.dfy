/** How a preparation round ends: by a start, or by an event that cancels it, and never otherwise. */
module RoomRounds {
  import opened Util
  import opened Video
  import VideoQueue
  import opened RoomModel
  import opened RoomInvariant
  import opened RoomRuns
  import opened RoomTheorems

  /** Some start time was written for the round. */
  ghost predicate HasStart(starts: seq<Start>, id: nat) {
    exists k :: 0 <= k < |starts| && starts[k].round == id
  }

  ghost predicate Holds(s: State, id: nat) {
    s.round.Some? && s.round.value.id == id
  }

  /**
   The round went over into playback: its start is logged, and the room plays, unless it was
   held at once for somebody who buffers or is already on to another item.
   */
  ghost predicate Started(s: State, r: State, id: nat) {
    HasStart(r.history.starts, id) && (r.playing || r.gate.Some? || r.history.sources > s.history.sources)
  }

  /** Inside a handler: the round is still there, or its start is logged and the room plays. */
  ghost predicate Survives(s: State, r: State) {
    s.round.Some? ==> Holds(r, s.round.value.id) || (HasStart(r.history.starts, s.round.value.id) && r.playing)
  }

  /** Nobody of the round is left, and nobody else could prepare. */
  ghost predicate Abandoned(s: State) {
    s.round.Some? && s.round.value.eligible != [] && Live(s.round.value.eligible, s.users, s.grants) == []
    && Preparers(s.users, s.grants) == []
  }

  /** The events that cancel or replace the round being held. */
  ghost predicate Cancels(s: State, e: Event) {
    s.round.Some?
    && match e
       case PlayEvent | PauseEvent | SkipEvent | UndoAddEvent => true
       case SeekEvent(value) => 0.0 <= value <= MAX_SEEK_SECONDS
       case PlayNowEvent(_) | UndoSkipEvent(_, _) => Handle(s, e).history.sources > s.history.sources
       case LeaveEvent(id) => FindUser(s.users, id).Some? && (|s.users| == 1 || id in s.round.value.eligible)
       case JoinEvent(viewer, reconnect) => reconnect && s.users == [] && MayPlayPause(s.grants, viewer)
         && CanPrepare(s)
       case TickEvent(_) => Abandoned(s)
       case _ => false
  }

  // ---------------------------------------------------------------- single transitions

  lemma GateLeavesRound(s: State)
    requires Inv(s) && s.round.Some?
    ensures EvaluateGate(s) == s
  {
  }

  lemma LoggedHasStart(starts: seq<Start>, start: Start)
    ensures HasStart(starts + [start], start.round)
  {
    assert (starts + [start])[|starts|] == start;
  }

  lemma ScheduleSurvives(s: State, fallback: Option<Fallback>)
    requires Inv(s) && s.round.Some?
    ensures Survives(s, ScheduleStart(s, fallback))
  {
    var r := s.round.value;
    var live := Live(r.eligible, s.users, s.grants);
    var startAt := if |live| <= 1 then s.now else s.now + PLAYBACK_START_LEAD_MS;
    LoggedHasStart(s.history.starts, Start(r.id, s.now, startAt, live, r.ready, r.deadlineAt, r.hardDeadlineAt));
  }

  lemma StartSurvives(s: State)
    requires Inv(s) && s.round.Some?
    ensures Survives(s, StartPrepared(s))
  {
    if s.round.value.startAt.Some? {
      var starts := s.history.starts;
      assert starts[|starts| - 1].round == s.round.value.id;
    }
  }

  lemma ReplacedSurvives(s: State, t: State, r: State)
    requires s.round.Some? && Holds(t, s.round.value.id) && Survives(t, r)
    ensures Survives(s, r)
  {
  }

  lemma ScheduleIfAllReadySurvives(s: State)
    requires Inv(s) && s.round.Some?
    ensures Survives(s, ScheduleIfAllReady(s))
  {
    ScheduleSurvives(s, None);
  }

  lemma DropSurvives(s: State, id: ClientId)
    requires Inv(s) && s.round.Some?
    ensures Survives(s, DropParticipant(s, id))
  {
    if id in s.round.value.eligible {
      var r := s.round.value;
      var left := Without(r.eligible, id);
      var ready := Without(r.ready, id);
      if left != [] {
        var t := s.(round := Some(r.(eligible := left, ready := ready, client := left[0])));
        ShrinkKeeps(s, left, ready, left[0], r.fallback);
        assert t == s.(round := Some(r.(eligible := left, ready := ready, client := left[0], fallback := r.fallback)));
        ScheduleIfAllReadySurvives(t);
        ReplacedSurvives(s, t, ScheduleIfAllReady(t));
      }
    }
  }

  lemma ReportSurvives(s: State, id: ClientId, status: Option<PlayerStatus>, prepared: Option<Prepared>)
    requires Inv(s) && s.round.Some?
    ensures Survives(s, FinishPreparation(s, id, status, prepared))
  {
    if prepared.Some? && Concerns(s, id, prepared.value) {
      if prepared.value.failed || !prepared.value.visible {
        DropSurvives(s, id);
      } else if ProvesReady(s, status, prepared.value) {
        var r := s.round.value;
        var ready := Without(r.ready, id) + [id];
        DistinctAppend(Without(r.ready, id), id);
        var t := s.(round := Some(r.(ready := ready)));
        ShrinkKeeps(s, r.eligible, ready, r.client, r.fallback);
        assert t == s.(round := Some(r.(eligible := r.eligible, ready := ready, client := r.client,
               fallback := r.fallback)));
        ScheduleIfAllReadySurvives(t);
        ReplacedSurvives(s, t, ScheduleIfAllReady(t));
      }
    }
  }

  lemma PlaysOrHolds(s: State)
    requires Inv(s) && s.playing
    ensures EvaluateGate(s).playing || EvaluateGate(s).gate.Some?
  {
  }

  lemma EvaluatedEnds(s: State, t: State)
    requires Inv(t) && Survives(s, t) && s.round.Some?
    ensures var r := EvaluateGate(t); Holds(r, s.round.value.id) || Started(s, r, s.round.value.id)
  {
    if Holds(t, s.round.value.id) {
      GateLeavesRound(t);
    } else {
      EvaluateKeeps(t);
      HasStartStays(t.history.starts, EvaluateGate(t).history.starts, s.round.value.id);
      PlaysOrHolds(t);
    }
  }

  lemma HasStartStays(before: seq<Start>, after: seq<Start>, id: nat)
    requires HasStart(before, id) && before <= after
    ensures HasStart(after, id)
  {
    var k :| 0 <= k < |before| && before[k].round == id;
    assert after[k] == before[k];
  }

  // ---------------------------------------------------------------- the tick

  /** Without its whole audience gone, refreshing a round keeps it. */
  lemma RefreshHolds(s: State)
    requires s.round.Some?
    ensures if Abandoned(s) then RefreshRound(s).round.None? else Holds(RefreshRound(s), s.round.value.id)
    ensures RefreshRound(s).playing == s.playing && RefreshRound(s).history == s.history
  {
  }

  lemma DecidedSurvives(s: State)
    requires Inv(s) && s.round.Some?
    ensures Survives(s, Decided(s))
  {
    ScheduleSurvives(s, None);
    ScheduleSurvives(s, Some(Partial));
    ScheduleSurvives(s, Some(Forced));
  }

  lemma TickRoundSurvives(s: State)
    requires Inv(s) && s.round.Some? && !Abandoned(s)
    ensures Survives(s, TickRound(s))
  {
    RefreshHolds(s);
    RefreshKeeps(s);
    var r := RefreshRound(s);
    if r.round.value.startAt.Some? {
      StartSurvives(r);
    } else {
      TickDecides(r);
      DecidedSurvives(r);
    }
  }

  /** What follows the round's part of a tick leaves a round alone; a room that just started may move on. */
  lemma RestOfTick(t: State, skipTo: Option<real>)
    requires Inv(t)
    ensures var q := TickQueue(TickBoost(t));
            var r := if skipTo.Some? && q.playing then SeekRaw(q, skipTo.value) else q;
            && (t.round.Some? ==> r.round == t.round)
            && (t.playing ==> r.playing || r.gate.Some? || r.history.sources > t.history.sources)
  {
    TickBoostKeeps(t);
    EndBoostKeeps(t);
    EndingKeepsHistory(t);
    var b := TickBoost(t);
    TickQueueKeeps(b);
    if (b.source.None? && b.queue != []) || Ended(b) {
      DequeueNextKeeps(b);
    }
  }

  lemma TickEnds(s: State, skipTo: Option<real>)
    requires Inv(s) && s.round.Some? && !Abandoned(s)
    ensures var r := Tick(s, skipTo); Holds(r, s.round.value.id) || Started(s, r, s.round.value.id)
  {
    GateLeavesRound(s);
    TickRoundSurvives(s);
    TickRoundKeeps(s);
    var t := TickRound(s);
    RestOfTick(t, skipTo);
    AfterTickRoundKeeps(t, skipTo);
    if !Holds(t, s.round.value.id) {
      HasStartStays(t.history.starts, Tick(s, skipTo).history.starts, s.round.value.id);
    }
  }

  lemma TickCancels(s: State, skipTo: Option<real>)
    requires Inv(s) && Abandoned(s)
    ensures !Holds(Tick(s, skipTo), s.round.value.id)
  {
    GateLeavesRound(s);
    RefreshHolds(s);
    TickRoundKeeps(s);
    var t := TickRound(s);
    assert t.round.None?;
    AfterTickRoundKeeps(t, skipTo);
  }

  lemma TickEndsOrCancels(s: State, skipTo: Option<real>)
    requires Inv(s) && s.round.Some?
    ensures var r := Tick(s, skipTo);
            if Abandoned(s) then !Holds(r, s.round.value.id)
            else Holds(r, s.round.value.id) || Started(s, r, s.round.value.id)
  {
    if Abandoned(s) { TickCancels(s, skipTo); } else { TickEnds(s, skipTo); }
  }

  // ---------------------------------------------------------------- every event

  lemma PreparedIsNew(s: State)
    requires s.round.None?
    ensures HoldOrPlay(s).round.Some? ==> HoldOrPlay(s).round.value.id == s.nextRound
  {
  }

  lemma NewSourceEndsRound(s: State, queue: seq<Item>, source: Item, position: real)
    requires Inv(s) && s.round.Some?
    ensures !Holds(HoldOrPlay(Reposition(SetSource(s.(queue := queue), Some(source)), position)), s.round.value.id)
  {
    RepositionedKeeps(s, queue, Some(source), position);
    PreparedIsNew(Reposition(SetSource(s.(queue := queue), Some(source)), position));
  }

  lemma TakenEndsRound(s: State, queue: seq<Item>)
    requires Inv(s) && s.round.Some? && queue != []
    ensures !Holds(DequeueFrom(s, queue), s.round.value.id)
  {
    RepositionedKeeps(s, queue[1..], Some(queue[0]), queue[0].startAt.GetOr(0.0));
    PreparedIsNew(Taken(s, queue));
  }

  lemma AdvanceEndsRound(s: State)
    requires Inv(s) && s.round.Some?
    ensures !Holds(DequeueNext(s), s.round.value.id)
  {
    assert ReleaseGate(s, false) == s;
    if s.mode == Dj {
      RepositionedKeeps(s, s.queue, Some(s.source.value.Untrimmed()), 0.0);
      assert s.(queue := s.queue) == s;
    } else {
      var requeued := if s.mode == Loop then s.queue + [s.source.value.Untrimmed()] else s.queue;
      if requeued != [] {
        TakenEndsRound(s, requeued);
      } else {
        ClearedEndsRound(s, requeued);
      }
    }
  }

  lemma ClearedEndsRound(s: State, queue: seq<Item>)
    requires s.source.Some? && queue == []
    ensures DequeueFrom(s, queue).round.None?
  {
  }

  lemma ChosenEndsRound(s: State, item: Item)
    requires Inv(s) && s.round.Some?
    ensures if PlayNow(s, item).history.sources > s.history.sources then !Holds(PlayNow(s, item), s.round.value.id)
            else PlayNow(s, item).round == s.round
  {
    var at := VideoQueue.FindIndex(s.queue, item.video);
    var evicted := if at >= 0 then VideoQueue.RemoveAt(s.queue, at) else s.queue;
    var target := if at >= 0 then s.queue[at] else item;
    var back := [s.source.value.(startAt := Some(RealPosition(s)))] + evicted;
    NewSourceEndsRound(s, back, target, 0.0);
    SwitchKeeps(s, back, target);
  }

  lemma UndoneEndsRound(s: State, item: Item, prevPosition: real)
    requires Inv(s) && s.round.Some?
    ensures if UndoSkip(s, item, prevPosition).history.sources > s.history.sources
            then UndoSkip(s, item, prevPosition).round.None?
            else UndoSkip(s, item, prevPosition) == s
  {
    var push := s.source.Some? && VideoQueue.FindIndex(s.queue, s.source.value.video) < 0;
    RepositionedKeeps(s, if push then [s.source.value] + s.queue else s.queue, Some(item), prevPosition);
  }

  lemma LeaveEndsIff(s: State, id: ClientId)
    requires Inv(s) && s.round.Some?
    ensures Holds(Leave(s, id), s.round.value.id) <==> !Cancels(s, LeaveEvent(id))
  {
    if FindUser(s.users, id).Some? {
      GoneKeeps(s, id);
      var gone := Gone(s, id);
      if gone.users == [] {
        assert Emptied(gone).round.None?;
        EmptiedKeeps(gone);
        EvaluateKeeps(Emptied(gone));
      } else if id in s.round.value.eligible {
        RebuiltKeeps(gone);
        EvaluateKeeps(AfterLeave(gone, id));
        assert AfterLeave(gone, id).round.Some? ==> AfterLeave(gone, id).round.value.id == s.nextRound;
      } else {
        GateLeavesRound(gone);
      }
    }
  }

  lemma JoinEndsIff(s: State, viewer: Viewer, reconnect: bool)
    requires Inv(s) && s.round.Some?
    ensures Holds(Join(s, viewer, reconnect), s.round.value.id) <==> !Cancels(s, JoinEvent(viewer, reconnect))
  {
    assert HoldEmpty(s, reconnect) == s;
  }

  lemma UpdateEnds(s: State, id: ClientId, status: Option<PlayerStatus>, prepared: Option<Prepared>)
    requires Inv(s) && s.round.Some?
    ensures var r := UpdateUser(s, id, status, prepared);
            Holds(r, s.round.value.id) || Started(s, r, s.round.value.id)
  {
    if FindUser(s.users, id).None? {
      GateLeavesRound(s);
    } else {
      var u := if status.None? then s else Reported(s, id, status.value);
      if status.Some? { ReportedKeeps(s, id, status.value); }
      ReportSurvives(u, id, status, prepared);
      FinishKeeps(u, id, status, prepared);
      EvaluatedEnds(u, FinishPreparation(u, id, status, prepared));
    }
  }

  lemma StartTimerEnds(s: State)
    requires Inv(s) && s.round.Some?
    ensures var r := Handle(s, StartTimer); Holds(r, s.round.value.id) || Started(s, r, s.round.value.id)
  {
    StartSurvives(s);
  }

  lemma RequestsLeaveRound(s: State, e: Event)
    requires Inv(s) && s.round.Some?
    requires e.LeaseTimer? || e.HoldEmptyEvent? || e.SpeedEvent? || e.StartBoostEvent? || e.RenewBoostEvent?
            || e.StopBoostEvent?
             || e.EditQueue? || e.VoteEvent? || e.Settings? || e.Promote?
    ensures Handle(s, e).round == s.round
  {
    match e
    case Settings(mode, gatePauses, grants) => GateLeavesRound(s.(mode := mode, gatePauses := gatePauses,
      grants := grants));
    case _ =>
  }

  lemma RequestsCancelRound(s: State, e: Event)
    requires Inv(s) && s.round.Some?
    requires e.PlayEvent? || e.PauseEvent? || e.SkipEvent? || e.SeekEvent? || e.UndoAddEvent?
    ensures Holds(Handle(s, e), s.round.value.id) <==> !Cancels(s, e)
  {
    match e
    case SkipEvent => AdvanceEndsRound(s);
    case PauseEvent => PauseKeeps(s); CancelledPause(s);
    case _ =>
  }

  lemma CancelledPause(s: State)
    ensures Pause(s, false).round.None?
  {
  }

  lemma ViewersEndRound(s: State, e: Event)
    requires Inv(s) && s.round.Some? && (e.StartTimer? || e.UpdateUserEvent? || e.JoinEvent? || e.LeaveEvent?)
    ensures if Cancels(s, e) then !Holds(Handle(s, e), s.round.value.id)
            else Holds(Handle(s, e), s.round.value.id) || Started(s, Handle(s, e), s.round.value.id)
  {
    match e
    case StartTimer => StartTimerEnds(s);
    case UpdateUserEvent(id, status, prepared) => UpdateEnds(s, id, status, prepared);
    case JoinEvent(viewer, reconnect) => JoinEndsIff(s, viewer, reconnect);
    case LeaveEvent(id) => LeaveEndsIff(s, id);
  }

  /**
   A held round ends by an event of the explicit list, and then at once; under any other event
   it is still held afterwards, or its start is logged and playback has begun.
   */
  lemma RoundEndsByStartOrCancel(s: State, e: Event)
    requires Inv(s) && Legal(s, e) && s.round.Some?
    ensures if Cancels(s, e) then !Holds(Handle(s, e), s.round.value.id)
            else Holds(Handle(s, e), s.round.value.id) || Started(s, Handle(s, e), s.round.value.id)
  {
    match e
    case TickEvent(skipTo) => TickEndsOrCancels(s, skipTo);
    case StartTimer | UpdateUserEvent(_, _, _) | JoinEvent(_, _) | LeaveEvent(_) => ViewersEndRound(s, e);
    case PlayNowEvent(_) | UndoSkipEvent(_, _) => ChoicesEndRound(s, e);
    case PlayEvent | PauseEvent | SkipEvent | SeekEvent(_) | UndoAddEvent => RequestsCancelRound(s, e);
    case _ => RequestsLeaveRound(s, e);
  }

  lemma ChoicesEndRound(s: State, e: Event)
    requires Inv(s) && s.round.Some? && (e.PlayNowEvent? || e.UndoSkipEvent?)
    ensures Holds(Handle(s, e), s.round.value.id) <==> !Cancels(s, e)
  {
    match e
    case PlayNowEvent(item) => ChosenEndsRound(s, item);
    case UndoSkipEvent(item, prevPosition) => UndoneEndsRound(s, item, prevPosition);
  }

  // ---------------------------------------------------------------- runs

  /** From the n-th event on, nothing cancels the round while it is held. */
  ghost predicate Uncancelled(s: State, trace: seq<Timed>, n: nat, id: nat)
    requires n <= |trace|
  {
    forall m: nat :: n <= m < |trace| && Holds(Run(s, trace[..m]), id) ==>
      !Cancels(Elapse(Run(s, trace[..m]), trace[m].at), trace[m].event)
  }

  lemma ElapsedRound(s: State, now: int)
    ensures Elapse(s, now).round == s.round && Elapse(s, now).history.starts == s.history.starts
  {
  }

  /** A round that nothing cancels is held until its start is logged. */
  lemma {:induction false} HeldUntilStarted(s: State, trace: seq<Timed>, n: nat, id: nat)
    requires Inv(s) && WaitingIsCurrent(s) && LegalRun(s, trace) && n <= |trace|
    requires Holds(Run(s, trace[..n]), id) && Uncancelled(s, trace, n, id)
    ensures Holds(Run(s, trace), id) || HasStart(Run(s, trace).history.starts, id)
    decreases |trace|
  {
    if n == |trace| {
      assert trace[..n] == trace;
    } else {
      var prefix, last := trace[..|trace| - 1], trace[|trace| - 1];
      var before := Run(s, prefix);
      RunStep(s, trace, before, last);
      assert prefix[..n] == trace[..n];
      UncancelledBefore(s, trace, n, id);
      HeldUntilStarted(s, prefix, n, id);
      EveryReachableStateIsSound(s, prefix);
      StepHoldsOrStarts(before, last, id);
    }
  }

  lemma UncancelledBefore(s: State, trace: seq<Timed>, n: nat, id: nat)
    requires n < |trace| && Uncancelled(s, trace, n, id)
    ensures Uncancelled(s, trace[..|trace| - 1], n, id)
    ensures Holds(Run(s, trace[..|trace| - 1]), id) ==>
              !Cancels(Elapse(Run(s, trace[..|trace| - 1]), trace[|trace| - 1].at), trace[|trace| - 1].event)
  {
    var prefix := trace[..|trace| - 1];
    forall m: nat | n <= m < |prefix| && Holds(Run(s, prefix[..m]), id)
      ensures !Cancels(Elapse(Run(s, prefix[..m]), prefix[m].at), prefix[m].event)
    {
      assert prefix[..m] == trace[..m] && prefix[m] == trace[m];
    }
  }

  lemma StepHoldsOrStarts(s: State, next: Timed, id: nat)
    requires Inv(s) && next.at >= s.now && Legal(s, next.event)
    requires Holds(s, id) || HasStart(s.history.starts, id)
    requires Holds(s, id) ==> !Cancels(Elapse(s, next.at), next.event)
    ensures var r := Step(s, next.at, next.event); Holds(r, id) || HasStart(r.history.starts, id)
  {
    var elapsed := Elapse(s, next.at);
    ElapseKeeps(s, next.at);
    ElapsedRound(s, next.at);
    if Holds(s, id) {
      RoundEndsByStartOrCancel(elapsed, next.event);
    } else {
      HandleKeeps(elapsed, next.event);
      HasStartStays(s.history.starts, Handle(elapsed, next.event).history.starts, id);
    }
  }

  /**
   With ticks at most `gap` apart, a round that nothing cancels has its start logged 21 s plus
   twice the gap after it was created.
   */
  lemma UncancelledRoundsStartInTime(s: State, trace: seq<Timed>, n: nat, gap: nat)
    requires Initial(s) && LegalRun(s, trace) && TicksWithin(s, trace, gap) && n <= |trace|
    requires Run(s, trace[..n]).round.Some? && Uncancelled(s, trace, n, Run(s, trace[..n]).round.value.id)
    requires var createdAt := Run(s, trace[..n]).round.value.hardDeadlineAt - PLAYBACK_HARD_FALLBACK_MS;
             Run(s, trace).now >= createdAt + PLAYBACK_HARD_FALLBACK_MS + PLAYBACK_START_LEAD_MS + 2 * gap
    ensures HasStart(Run(s, trace).history.starts, Run(s, trace[..n]).round.value.id)
  {
    var id := Run(s, trace[..n]).round.value.id;
    InitialIsSound(s);
    HeldUntilStarted(s, trace, n, id);
    if Holds(Run(s, trace), id) {
      RoundsStartInTime(s, trace, gap);
      DeadlineStays(s, trace, n, id);
    }
  }

  /** The same round has the same deadline. */
  lemma {:induction false} DeadlineStays(s: State, trace: seq<Timed>, n: nat, id: nat)
    requires Inv(s) && WaitingIsCurrent(s) && LegalRun(s, trace) && n <= |trace|
    requires Holds(Run(s, trace[..n]), id) && Holds(Run(s, trace), id)
    ensures Run(s, trace).round.value.hardDeadlineAt == Run(s, trace[..n]).round.value.hardDeadlineAt
    decreases |trace|
  {
    if n == |trace| {
      assert trace[..n] == trace;
    } else {
      var prefix, last := trace[..|trace| - 1], trace[|trace| - 1];
      var before := Run(s, prefix);
      RunStep(s, trace, before, last);
      assert prefix[..n] == trace[..n];
      EveryReachableStateIsSound(s, prefix);
      NextRoundGrows(s, prefix, n);
      EveryReachableStateIsSound(s, trace[..n]);
      ElapseKeeps(before, last.at);
      ElapsedRound(before, last.at);
      DeadlinesCountFromCreation(Elapse(before, last.at), last.event);
      DeadlineStays(s, prefix, n, id);
    }
  }

  lemma {:induction false} NextRoundGrows(s: State, trace: seq<Timed>, n: nat)
    requires Inv(s) && WaitingIsCurrent(s) && LegalRun(s, trace) && n <= |trace|
    ensures LegalRun(s, trace[..n]) && Run(s, trace[..n]).nextRound <= Run(s, trace).nextRound
    decreases |trace|
  {
    if n == |trace| {
      assert trace[..n] == trace;
    } else {
      var prefix, last := trace[..|trace| - 1], trace[|trace| - 1];
      var before := Run(s, prefix);
      RunStep(s, trace, before, last);
      assert prefix[..n] == trace[..n];
      NextRoundGrows(s, prefix, n);
      EveryReachableStateIsSound(s, prefix);
      ElapseKeeps(before, last.at);
      HandleKeeps(Elapse(before, last.at), last.event);
    }
  }
}
