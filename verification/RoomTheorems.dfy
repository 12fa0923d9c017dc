/** The promises of the playback machine, over every run. */
module RoomTheorems {
  import opened Util
  import opened Video
  import opened RoomModel
  import opened RoomInvariant
  import opened RoomRuns
  import Timestamp
  import VideoQueue

  // ---------------------------------------------------------------- runs

  datatype Timed = Timed(at: int, event: Event)

  ghost function Run(s: State, trace: seq<Timed>): State {
    if trace == [] then s
    else Step(Run(s, trace[..|trace| - 1]), trace[|trace| - 1].at, trace[|trace| - 1].event)
  }

  /** Time does not run backwards, and joining clients bring fresh ids. */
  ghost predicate LegalRun(s: State, trace: seq<Timed>) {
    trace == [] ||
    (LegalRun(s, trace[..|trace| - 1])
     && trace[|trace| - 1].at >= Run(s, trace[..|trace| - 1]).now
     && Legal(Run(s, trace[..|trace| - 1]), trace[|trace| - 1].event))
  }

  /**
   A room as the constructor leaves it: nobody in it, no overlay, and its saved clock, if any,
   intact. The restored flag is set when its queue came from storage.
   */
  ghost predicate Initial(s: State) {
    && s.users == [] && s.boost.None? && s.gate.None? && s.round.None? && s.startTimer.None?
    && s.cooldownUntil.None? && (s.playing ==> s.anchor.Some? && !s.resume)
    && s.history == History(RealPosition(s), s.speed, [], [], 0, s.now, 0)
  }

  lemma InitialIsSound(s: State)
    requires Initial(s)
    ensures Inv(s) && WaitingIsCurrent(s) && (!s.restored ==> Timely(s))
  {
  }

  /** Every reachable state satisfies the invariant, and every hold is current. */
  lemma {:induction false} EveryReachableStateIsSound(s: State, trace: seq<Timed>)
    requires Inv(s) && WaitingIsCurrent(s) && LegalRun(s, trace)
    ensures Sound(s, Run(s, trace)) && WaitingIsCurrent(Run(s, trace))
  {
    if trace != [] {
      var before := Run(s, trace[..|trace| - 1]);
      var last := trace[|trace| - 1];
      EveryReachableStateIsSound(s, trace[..|trace| - 1]);
      ElapseKeeps(before, last.at);
      HandleKeeps(Elapse(before, last.at), last.event);
    }
  }

  /** What the invariant says about the three overlays in every reachable state of a room. */
  lemma OverlaysNeverMix(s: State, trace: seq<Timed>)
    requires Initial(s) && LegalRun(s, trace)
    ensures var r := Run(s, trace);
            && !(r.gate.Some? && r.round.Some?) && !(r.gate.Some? && r.boost.Some?) && !(r.round.Some? && r.boost.Some?)
            && (r.gate.Some? || r.round.Some? ==> !r.playing)
            && (r.round.Some? ==> r.source.Some? && r.source.value.video == r.round.value.video
                                  && r.position == r.round.value.position)
            && (r.boost.Some? ==> r.playing && r.speed == TEMPORARY_PLAYBACK_SPEED && r.source.Some?)
            && (r.playing ==> !r.resume && (!s.restored ==> r.anchor.Some?))
  {
    InitialIsSound(s);
    EveryReachableStateIsSound(s, trace);
  }

  // ---------------------------------------------------------------- the clock

  /**
   Events after which the position continues from where it was. The others choose a position:
   a seek, a new source, a skipped segment, or a scheduled start that is carried out late.
   */
  ghost predicate Quiet(s: State, e: Event) {
    match e
    case TickEvent(skipTo) =>
      && skipTo.None? && Handle(s, e).history.sources == s.history.sources
      && (s.round.None? || s.round.value.startAt.None? || s.now < s.round.value.startAt.value)
    case StartTimer => s.startTimer.None?
    case SkipEvent => s.source.None?
    case SeekEvent(value) => !(0.0 <= value <= MAX_SEEK_SECONDS)
    case PlayNowEvent(item) => Handle(s, e).history.sources == s.history.sources
    case UndoSkipEvent(item, _) => Handle(s, e).history.sources == s.history.sources
    case _ => true
  }

  lemma TickKeepsClock(s: State, skipTo: Option<real>)
    requires Inv(s) && Timely(s) && Quiet(s, TickEvent(skipTo))
    ensures Tick(s, skipTo).history.ledger == s.history.ledger
  {
    EvaluateKeeps(s);
    var e := EvaluateGate(s);
    TickRoundKeeps(e);
    var t := TickRound(e);
    TickBoostKeeps(t);
    EndingKeepsHistory(t);
    TickQueueKeeps(TickBoost(t));
    var b := TickBoost(t);
    if (b.source.None? && b.queue != []) || Ended(b) {
      DequeueNextKeeps(b);
    }
  }

  lemma UpdateUserKeepsClock(s: State, id: ClientId, status: Option<PlayerStatus>, prepared: Option<Prepared>)
    requires Inv(s) && Timely(s)
    ensures SameClock(s, UpdateUser(s, id, status, prepared))
  {
    EvaluateKeeps(s);
    if FindUser(s.users, id).Some? {
      var u := if status.None? then s else Reported(s, id, status.value);
      if status.Some? { ReportedKeeps(s, id, status.value); }
      FinishKeeps(u, id, status, prepared);
      EvaluateKeeps(FinishPreparation(u, id, status, prepared));
    }
  }

  lemma LeaveKeepsClock(s: State, id: ClientId)
    requires Inv(s)
    ensures SameClock(s, Leave(s, id))
  {
    EndBoostKeeps(s);
    EndingKeepsHistory(s);
    var b := if s.boost.Some? && s.boost.value.client == id then EndBoost(s) else s;
    if FindUser(s.users, id).Some? {
      RemoveKeepsUnique(b.users, id);
      var votes := if b.mode == Vote then WithoutVoter(b.votes, id) else b.votes;
      var gone := b.(users := RemoveUser(b.users, id), votes := votes);
      WithoutUserKeeps(b, RemoveUser(b.users, id), votes);
      if gone.users == [] {
        EmptiedKeeps(gone);
      } else if gone.round.Some? && id in gone.round.value.eligible {
        RebuiltKeeps(gone);
      }
      EvaluateKeeps(AfterLeave(gone, id));
    }
  }

  lemma JoinKeepsClock(s: State, viewer: Viewer, reconnect: bool)
    requires Inv(s) && IsNew(s, viewer.id)
    ensures SameClock(s, Join(s, viewer, reconnect))
  {
    HoldEmptyKeeps(s, reconnect);
    var h := HoldEmpty(s, reconnect);
    AddedKeeps(h, viewer);
    PrepareKeeps(h.(users := h.users + [viewer]));
  }

  lemma ViewerEventsKeepClock(s: State, e: Event)
    requires Inv(s) && Timely(s) && Legal(s, e)
    requires e.UpdateUserEvent? || e.LeaveEvent? || e.JoinEvent? || e.Settings? || e.HoldEmptyEvent?
    ensures SameClock(s, Handle(s, e))
  {
    match e
    case UpdateUserEvent(id, status, prepared) => UpdateUserKeepsClock(s, id, status, prepared);
    case LeaveEvent(id) => LeaveKeepsClock(s, id);
    case JoinEvent(viewer, reconnect) => JoinKeepsClock(s, viewer, reconnect);
    case Settings(mode, gatePauses, grants) =>
      EvaluateKeeps(s.(mode := mode, gatePauses := gatePauses, grants := grants));
    case HoldEmptyEvent(reconnect) => HoldEmptyKeeps(s, reconnect);
  }

  lemma SpeedEventsKeepHistory(s: State, e: Event)
    requires Inv(s)
    requires e.LeaseTimer? || e.StartBoostEvent? || e.RenewBoostEvent? || e.StopBoostEvent? || e.PauseEvent?
    ensures Handle(s, e).history == s.history
  {
    EndingKeepsHistory(s);
    ReleaseFrame(s);
    PausingKeepsHistory(CancelRound(s.(gate := None)));
  }

  lemma SimpleEventsKeepClock(s: State, e: Event)
    requires Inv(s) && Quiet(s, e)
    requires !(e.TickEvent? || e.UpdateUserEvent? || e.LeaveEvent? || e.JoinEvent? || e.Settings? || e.PlayNowEvent?
               || e.UndoSkipEvent? || e.HoldEmptyEvent?)
    ensures Handle(s, e).history.ledger == s.history.ledger
  {
    if e.LeaseTimer? || e.StartBoostEvent? || e.RenewBoostEvent? || e.StopBoostEvent? || e.PauseEvent? {
      SpeedEventsKeepHistory(s, e);
    }
  }

  lemma RefusedUndoKeepsClock(s: State, item: Item, prevPosition: real)
    requires Inv(s) && UndoSkip(s, item, prevPosition).history.sources == s.history.sources
    ensures UndoSkip(s, item, prevPosition).history == s.history
  {
    var push := s.source.Some? && VideoQueue.FindIndex(s.queue, s.source.value.video) < 0;
    SetSourceKeeps(s.(queue := if push then [s.source.value] + s.queue else s.queue), Some(item));
  }

  lemma RefusedPlayNowKeepsClock(s: State, item: Item)
    requires Inv(s) && PlayNow(s, item).history.sources == s.history.sources
    ensures PlayNow(s, item).history == s.history
  {
    var at := VideoQueue.FindIndex(s.queue, item.video);
    RefusedChoiceKeepsClock(s, if at >= 0 then VideoQueue.RemoveAt(s.queue, at) else s.queue,
                            if at >= 0 then s.queue[at] else item);
  }

  lemma RefusedChoiceKeepsClock(s: State, evicted: seq<Item>, target: Item)
    requires Inv(s)
    ensures PlayChosen(s, evicted, target).history.sources == s.history.sources ==>
                PlayChosen(s, evicted, target).history == s.history
  {
    if s.source.None? {
      SwitchCounts(s, evicted, target);
    } else {
      SwitchCounts(s, [s.source.value.(startAt := Some(RealPosition(s)))] + evicted, target);
    }
  }

  lemma SwitchCounts(s: State, queue: seq<Item>, target: Item)
    requires Inv(s)
    ensures SwitchTo(s, queue, target).history.sources == s.history.sources + 1
  {
    var q := s.(queue := queue);
    SetSourceKeeps(q, Some(target));
    RepositionKeeps(SetSource(q, Some(target)), 0.0);
    HoldOrPlayKeeps(Reposition(SetSource(q, Some(target)), 0.0));
  }

  lemma QuietEventsKeepLedger(s: State, e: Event)
    requires Inv(s) && Timely(s) && Legal(s, e) && Quiet(s, e)
    ensures Handle(s, e).history.ledger == s.history.ledger
  {
    match e
    case TickEvent(skipTo) => TickKeepsClock(s, skipTo);
    case UpdateUserEvent(_, _, _) | LeaveEvent(_) | JoinEvent(_, _) | Settings(_, _, _) | HoldEmptyEvent(_) =>
      ViewerEventsKeepClock(s, e);
    case PlayNowEvent(item) => RefusedPlayNowKeepsClock(s, item);
    case UndoSkipEvent(item, prevPosition) => RefusedUndoKeepsClock(s, item, prevPosition);
    case _ => SimpleEventsKeepClock(s, e);
  }

  /** Quiet events are continuous: whatever they do to anchor, speed and overlays, the position does not jump. */
  lemma QuietEventsNeverJump(s: State, e: Event)
    requires Inv(s) && Timely(s) && Legal(s, e) && Quiet(s, e)
    ensures RealPosition(Handle(s, e)) == RealPosition(s)
  {
    HandleKeeps(s, e);
    QuietEventsKeepLedger(s, e);
  }

  /** How far the room plays until `now` at its effective speed. */
  ghost function Progress(s: State, now: int): real {
    (now - s.now) as real / 1000.0 * EffectiveSpeed(s)
  }

  /** The speed integrated over the playing time of a run. */
  ghost function Played(s: State, trace: seq<Timed>): real {
    if trace == [] then 0.0
    else Played(s, trace[..|trace| - 1]) + Progress(Run(s, trace[..|trace| - 1]), trace[|trace| - 1].at)
  }

  ghost predicate QuietRun(s: State, trace: seq<Timed>) {
    trace == [] ||
    (QuietRun(s, trace[..|trace| - 1])
     && Quiet(Elapse(Run(s, trace[..|trace| - 1]), trace[|trace| - 1].at), trace[|trace| - 1].event))
  }

  lemma ElapseAdvances(s: State, now: int)
    requires Inv(s) && Timely(s) && now >= s.now
    ensures RealPosition(Elapse(s, now)) == RealPosition(s) + Progress(s, now)
  {
    ElapseKeeps(s, now);
  }

  lemma QuietStepAdvances(s: State, now: int, e: Event)
    requires Inv(s) && Timely(s) && now >= s.now && Legal(s, e) && Quiet(Elapse(s, now), e)
    ensures RealPosition(Step(s, now, e)) == RealPosition(s) + Progress(s, now)
  {
    ElapseKeeps(s, now);
    ElapseAdvances(s, now);
    QuietEventsNeverJump(Elapse(s, now), e);
  }

  lemma RunStep(s: State, trace: seq<Timed>, before: State, last: Timed)
    requires trace != [] && before == Run(s, trace[..|trace| - 1]) && last == trace[|trace| - 1]
    ensures Run(s, trace) == Step(before, last.at, last.event)
    ensures Played(s, trace) == Played(s, trace[..|trace| - 1]) + Progress(before, last.at)
    ensures LegalRun(s, trace) ==>
              LegalRun(s, trace[..|trace| - 1]) && last.at >= before.now && Legal(before, last.event)
    ensures QuietRun(s, trace) ==> QuietRun(s, trace[..|trace| - 1]) && Quiet(Elapse(before, last.at), last.event)
  {
  }

  /** Since the last chosen position, the anchored clock is the integral of the effective speed. */
  lemma {:induction false} PositionIsIntegralOfSpeed(s: State, trace: seq<Timed>)
    requires Inv(s) && Timely(s) && WaitingIsCurrent(s) && LegalRun(s, trace) && QuietRun(s, trace)
    ensures RealPosition(Run(s, trace)) == RealPosition(s) + Played(s, trace)
  {
    if trace != [] {
      var prefix, last := trace[..|trace| - 1], trace[|trace| - 1];
      var before := Run(s, prefix);
      RunStep(s, trace, before, last);
      PositionIsIntegralOfSpeed(s, prefix);
      EveryReachableStateIsSound(s, prefix);
      QuietStepAdvances(before, last.at, last.event);
    }
  }

  // ---------------------------------------------------------------- where a chosen position lands

  /** Whether a freshly anchored source is held or plays, it stands where it was put. */
  lemma FreshlyAnchoredStands(s: State)
    requires s.anchor == Some(s.now) && s.boost.None?
    ensures RealPosition(HoldOrPlay(s)) == s.position
  {
    Timestamp.NoTimeNoProgress(s.now, 0.0, s.speed);
    assert EndBoost(s) == s;
  }

  lemma PutOn(s: State, source: Item, position: real)
    ensures var t := Reposition(SetSource(s, Some(source)), position);
            t.anchor == Some(t.now) && t.boost.None? && t.position == position
  {
  }

  /** A requested source starts at its beginning, held for preparation or not. */
  lemma SwitchStartsAtZero(s: State, queue: seq<Item>, target: Item)
    ensures RealPosition(SwitchTo(s, queue, target)) == 0.0
  {
    PutOn(s.(queue := queue), target, 0.0);
    FreshlyAnchoredStands(Reposition(SetSource(s.(queue := queue), Some(target)), 0.0));
  }

  /** A queued item starts at its own start position, held for preparation, playing, or paused after a restore. */
  lemma QueuedStartsAtItsTrim(s: State, queue: seq<Item>)
    requires queue != []
    ensures RealPosition(DequeueFrom(s, queue)) == queue[0].startAt.GetOr(0.0)
  {
    PutOn(s.(queue := queue[1..]), queue[0], queue[0].startAt.GetOr(0.0));
    if !s.restored {
      FreshlyAnchoredStands(Taken(s, queue));
    }
  }

  /** A prepared start: at the agreed time, early or late as its timer may be, the room is exactly where it was held. */
  lemma PreparedStartIsExact(s: State)
    requires s.round.Some? && s.round.value.startAt.Some? && s.now + 50 >= s.round.value.startAt.value
    ensures var r := StartPrepared(s);
            && r.playing && r.round.None?
            && RealPosition(r.(now := s.round.value.startAt.value)) == s.round.value.position
            && RealPosition(r)
               == s.round.value.position + (s.now - s.round.value.startAt.value) as real / 1000.0 * s.speed
  {
    Timestamp.NoTimeNoProgress(s.round.value.startAt.value, 0.0, s.speed);
  }

  // ---------------------------------------------------------------- the speed

  lemma TickKeepsChosen(s: State, skipTo: Option<real>)
    requires Inv(s) && Timely(s) && Tick(s, skipTo).history.sources == s.history.sources
    ensures Tick(s, skipTo).history.chosen == s.history.chosen
  {
    EvaluateKeeps(s);
    var e := EvaluateGate(s);
    TickRoundKeeps(e);
    TickRoundKeepsChosen(e);
    var t := TickRound(e);
    TickBoostKeeps(t);
    EndingKeepsHistory(t);
    var b := TickBoost(t);
    TickQueueKeeps(b);
    if (b.source.None? && b.queue != []) || Ended(b) {
      DequeueNextKeeps(b);
    }
  }

  lemma TickRoundKeepsChosen(s: State)
    requires Inv(s) && Timely(s)
    ensures TickRound(s).history.chosen == s.history.chosen
  {
    if s.round.Some? {
      RefreshKeeps(s);
      var r := RefreshRound(s);
      if r.round.Some? && r.round.value.startAt.None? {
        TickDecides(r);
      }
    }
  }

  /**
   Boosts come and go, but the speed underneath only changes with an explicit speed request
   or a new source: a finished boost restores the speed it found.
   */
  lemma NominalSpeedIsKept(s: State, e: Event)
    requires Inv(s) && Timely(s) && Legal(s, e) && !e.SpeedEvent? && Handle(s, e).history.sources == s.history.sources
    ensures NominalSpeed(Handle(s, e)) == NominalSpeed(s)
  {
    HandleKeeps(s, e);
    EventsKeepChosen(s, e);
  }

  lemma EventsKeepChosen(s: State, e: Event)
    requires Inv(s) && Timely(s) && Legal(s, e) && !e.SpeedEvent? && Handle(s, e).history.sources == s.history.sources
    ensures Handle(s, e).history.chosen == s.history.chosen
  {
    match e
    case TickEvent(skipTo) => TickKeepsChosen(s, skipTo);
    case UpdateUserEvent(_, _, _) | LeaveEvent(_) | JoinEvent(_, _) | Settings(_, _, _) | HoldEmptyEvent(_) =>
      ViewerEventsKeepClock(s, e);
    case PlayNowEvent(item) => RefusedPlayNowKeepsClock(s, item);
    case UndoSkipEvent(item, prevPosition) => RefusedUndoKeepsClock(s, item, prevPosition);
    case SkipEvent => if s.source.Some? { DequeueNextKeeps(s); }
    case _ => SimpleEventsKeepChosen(s, e);
  }

  lemma SimpleEventsKeepChosen(s: State, e: Event)
    requires Inv(s) && !e.SpeedEvent?
    requires !(e.TickEvent? || e.UpdateUserEvent? || e.LeaveEvent? || e.JoinEvent? || e.Settings? || e.PlayNowEvent?
               || e.UndoSkipEvent? || e.HoldEmptyEvent? || e.SkipEvent?)
    ensures Handle(s, e).history.chosen == s.history.chosen
  {
    if e.LeaseTimer? || e.StartBoostEvent? || e.RenewBoostEvent? || e.StopBoostEvent? || e.PauseEvent? {
      SpeedEventsKeepHistory(s, e);
    }
  }

  /** The speed a run leaves behind: the last one requested, or the default since the last advance of the queue. */
  ghost predicate SpeedUntouched(s: State, trace: seq<Timed>) {
    trace == [] ||
    (SpeedUntouched(s, trace[..|trace| - 1]) && !trace[|trace| - 1].event.SpeedEvent?
     && Run(s, trace).history.sources == Run(s, trace[..|trace| - 1]).history.sources)
  }

  /** Any number of boosts, held, renewed, stopped or expired, leave the speed as it was before them. */
  lemma {:induction false} BoostsRestoreTheSpeed(s: State, trace: seq<Timed>)
    requires Inv(s) && Timely(s) && WaitingIsCurrent(s) && LegalRun(s, trace) && SpeedUntouched(s, trace)
    ensures NominalSpeed(Run(s, trace)) == NominalSpeed(s)
    ensures s.boost.None? && Run(s, trace).boost.None? ==> Run(s, trace).speed == s.speed
  {
    if trace != [] {
      var prefix, last := trace[..|trace| - 1], trace[|trace| - 1];
      BoostsRestoreTheSpeed(s, prefix);
      EveryReachableStateIsSound(s, prefix);
      ElapseKeeps(Run(s, prefix), last.at);
      NominalSpeedIsKept(Elapse(Run(s, prefix), last.at), last.event);
    }
  }

  // ---------------------------------------------------------------- preparation rounds

  /**
   In every reachable state each start time was written for one of the three reasons, no round
   got two, and the start time of the round being held is the one written last.
   */
  lemma RoundsStartOnceAndForAReason(s: State, trace: seq<Timed>)
    requires Initial(s) && LegalRun(s, trace)
    ensures var r := Run(s, trace);
            && (forall k :: 0 <= k < |r.history.starts| ==> Justified(r.history.starts[k]))
            && (forall j, k :: 0 <= j < k < |r.history.starts| ==>
                r.history.starts[j].round != r.history.starts[k].round)
            && (r.round.Some? && r.round.value.startAt.Some? ==> Logged(r.history.starts, r.round.value))
  {
    InitialIsSound(s);
    EveryReachableStateIsSound(s, trace);
  }

  /** While a round is held it only loses viewers, and a start time once written stays. */
  lemma RoundsOnlyShrink(s: State, e: Event)
    requires Inv(s) && Legal(s, e) && s.round.Some?
    requires Handle(s, e).round.Some? && Handle(s, e).round.value.id == s.round.value.id
    ensures Shrunk(s.round.value, Handle(s, e).round.value)
    ensures var q := Handle(s, e).round.value;
            Distinct(q.eligible) && Distinct(q.ready) && forall id :: id in q.ready ==> id in q.eligible
  {
    HandleKeeps(s, e);
  }

  /** A readiness report for another round is as good as none. */
  lemma StaleReportIsIgnored(s: State, id: ClientId, status: Option<PlayerStatus>, prepared: Prepared)
    requires s.round.None? || prepared.id != s.round.value.id
    ensures UpdateUser(s, id, status, Some(prepared)) == UpdateUser(s, id, status, None)
  {
  }

  /** The runs whose ticks are at most `gap` milliseconds apart. */
  ghost predicate TicksWithin(s: State, trace: seq<Timed>, gap: int) {
    trace == [] ||
    (TicksWithin(s, trace[..|trace| - 1], gap)
     && trace[|trace| - 1].at <= Run(s, trace[..|trace| - 1]).history.lastTick + gap)
  }

  /** The longest wait for a tick is what the run allowed. */
  lemma {:induction false} GapIsBounded(s: State, trace: seq<Timed>, gap: int)
    requires Inv(s) && WaitingIsCurrent(s) && LegalRun(s, trace) && TicksWithin(s, trace, gap)
    requires s.history.maxGap <= gap
    ensures Run(s, trace).history.maxGap <= gap
  {
    if trace != [] {
      var prefix, last := trace[..|trace| - 1], trace[|trace| - 1];
      var before := Run(s, prefix);
      RunStep(s, trace, before, last);
      GapIsBounded(s, prefix, gap);
      EveryReachableStateIsSound(s, prefix);
      ElapseKeeps(before, last.at);
      HandleKeeps(Elapse(before, last.at), last.event);
    }
  }

  /**
   A round that is still being held was created less than 21 s plus twice the tick gap ago,
   so one that is neither cancelled nor replaced has started by then.
   */
  lemma RoundsStartInTime(s: State, trace: seq<Timed>, gap: nat)
    requires Initial(s) && LegalRun(s, trace) && TicksWithin(s, trace, gap)
    requires Run(s, trace).round.Some?
    ensures var r := Run(s, trace);
            var createdAt := r.round.value.hardDeadlineAt - PLAYBACK_HARD_FALLBACK_MS;
            r.now < createdAt + PLAYBACK_HARD_FALLBACK_MS + PLAYBACK_START_LEAD_MS + 2 * gap
  {
    InitialIsSound(s);
    EveryReachableStateIsSound(s, trace);
    GapIsBounded(s, trace, gap);
  }

  /** `createdAt` above is when the round was created: no handler moves the hard deadline of a round. */
  lemma DeadlinesCountFromCreation(s: State, e: Event)
    requires Inv(s) && Legal(s, e) && Handle(s, e).round.Some?
    ensures var q := Handle(s, e).round.value;
            if s.round.Some? && s.round.value.id == q.id
            then q.hardDeadlineAt == s.round.value.hardDeadlineAt && q.deadlineAt == s.round.value.deadlineAt
            else q.id >= s.nextRound && q.hardDeadlineAt == s.now + PLAYBACK_HARD_FALLBACK_MS
  {
    HandleKeeps(s, e);
  }

  ghost function Joins(trace: seq<Timed>): nat {
    if trace == [] then 0 else Joins(trace[..|trace| - 1]) + if trace[|trace| - 1].event.JoinEvent? then 1 else 0
  }

  /**
   Rounds created in a run are paid for by the viewers there at the start, two per join, and
   the source changes. Without joins or new sources, leaving viewers can restart a round only
   as often as there were viewers.
   */
  lemma {:induction false} RestartsArePaidFor(s: State, trace: seq<Timed>)
    requires Inv(s) && WaitingIsCurrent(s) && LegalRun(s, trace)
    ensures var r := Run(s, trace);
            r.nextRound - s.nextRound
            <= |s.users| - |r.users| + 2 * Joins(trace) + (r.history.sources - s.history.sources)
  {
    if trace != [] {
      var prefix, last := trace[..|trace| - 1], trace[|trace| - 1];
      var before := Run(s, prefix);
      RunStep(s, trace, before, last);
      RestartsArePaidFor(s, prefix);
      EveryReachableStateIsSound(s, prefix);
      ElapseKeeps(before, last.at);
      HandleKeeps(Elapse(before, last.at), last.event);
      if last.event.JoinEvent? {
        JoinHandled(Elapse(before, last.at), last.event.viewer, last.event.reconnect);
      }
    }
  }

  // ---------------------------------------------------------------- the buffer gate

  /** A hold that is 15 s old does not survive a tick. */
  lemma OverdueHoldEndsAtTick(s: State, skipTo: Option<real>)
    requires Inv(s) && s.gate.Some? && s.now - s.gate.value.startedAt >= BUFFER_GATE_MAX_WAIT_MS
    ensures Tick(s, skipTo).gate.None?
    ensures Tick(s, skipTo).history.timeouts == s.history.timeouts + [s.gate.value.startedAt]
  {
    EvaluateKeeps(s);
    var e := EvaluateGate(s);
    TickRoundKeeps(e);
    AfterTickRoundKeeps(TickRound(e), skipTo);
  }

  /** Any hold begins at least 45 s after every earlier hold that ran out. */
  lemma HoldsKeepTheirDistance(s: State, trace: seq<Timed>, k: nat)
    requires Initial(s) && LegalRun(s, trace)
    requires Run(s, trace).gate.Some? && k < |Run(s, trace).history.timeouts|
    ensures Run(s, trace).gate.value.startedAt >= Run(s, trace).history.timeouts[k] + 45000
  {
    InitialIsSound(s);
    EveryReachableStateIsSound(s, trace);
  }

  /** One viewer stays alone and buffering on one source for the whole run. */
  ghost predicate SoloRun(s: State, trace: seq<Timed>) {
    trace == [] ||
    (SoloRun(s, trace[..|trace| - 1]) && SameSoloViewer(Run(s, trace[..|trace| - 1]), Run(s, trace)))
  }

  lemma {:induction false} SoloPatienceNeverGrows(s: State, trace: seq<Timed>)
    requires Inv(s) && WaitingIsCurrent(s) && LegalRun(s, trace) && SoloRun(s, trace) && |s.users| == 1
    ensures |Run(s, trace).users| == 1 && Patience(Run(s, trace)) <= Patience(s)
  {
    if trace != [] {
      var prefix, last := trace[..|trace| - 1], trace[|trace| - 1];
      var before := Run(s, prefix);
      RunStep(s, trace, before, last);
      SoloPatienceNeverGrows(s, prefix);
      EveryReachableStateIsSound(s, prefix);
      ElapseKeeps(before, last.at);
      HandleKeeps(Elapse(before, last.at), last.event);
      assert SameSoloViewer(Elapse(before, last.at), Run(s, trace));
      assert WaitingIsCurrent(Elapse(before, last.at));
    }
  }

  /** While one viewer stays alone, always buffering, on one source, at most one hold runs out. */
  lemma LoneViewerTimesOutOnce(s: State, trace: seq<Timed>)
    requires Inv(s) && WaitingIsCurrent(s) && LegalRun(s, trace) && SoloRun(s, trace) && |s.users| == 1
    ensures |Run(s, trace).history.timeouts| <= |s.history.timeouts| + 1
  {
    SoloPatienceNeverGrows(s, trace);
  }
}
