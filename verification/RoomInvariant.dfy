/**
 What every handler of the playback machine keeps. One invariant ties the three overlays,
 the anchored clock, the preparation rounds and the buffer gate together; each transition
 function keeps it, so every reachable state satisfies it.
 */
module RoomInvariant {
  import opened Util
  import opened Video
  import opened RoleLattice
  import opened RoomModel
  import Timestamp
  import VideoQueue

  // ---------------------------------------------------------------- the invariant

  ghost predicate UniqueIds(users: seq<Viewer>) {
    forall i, j :: 0 <= i < j < |users| ==> users[i].id != users[j].id
  }

  /** At most one overlay is active, and each agrees with the fields it relies on. */
  ghost predicate OverlaysAgree(s: State) {
    && (s.boost.Some? ==>
          s.gate.None? && s.round.None? && s.playing && s.source.Some? && s.speed == TEMPORARY_PLAYBACK_SPEED)
    && (s.gate.Some? ==> s.round.None? && !s.playing && !s.resume && s.source.Some?)
    && (s.round.Some? ==> !s.playing && s.resume && s.source.Some?
                          && s.source.value.video == s.round.value.video && s.position == s.round.value.position)
    && (s.playing ==> !s.resume)
  }

  /** The speed the room would have without a boost. */
  ghost function NominalSpeed(s: State): real {
    if s.boost.Some? then s.boost.value.previousSpeed else s.speed
  }

  /** The anchored position is the reference clock, and without a boost the speed is the chosen one. */
  ghost predicate ClockAgrees(s: State) {
    RealPosition(s) == s.history.ledger && NominalSpeed(s) == s.history.chosen
  }

  /** The three reasons for which a start may be scheduled, and when playback then begins. */
  ghost predicate Justified(start: Start) {
    && (|| AllReady(start.live, start.ready)
        || (start.at >= start.deadlineAt && start.ready != [])
        || (start.at >= start.hardDeadlineAt && start.ready == []))
    && start.startAt == if |start.live| <= 1 then start.at else start.at + PLAYBACK_START_LEAD_MS
  }

  ghost predicate Unstarted(starts: seq<Start>, round: nat) {
    forall k :: 0 <= k < |starts| ==> starts[k].round != round
  }

  /** Every start was justified, and no round was started twice. */
  ghost predicate StartsAreSound(starts: seq<Start>, nextRound: nat) {
    && (forall k :: 0 <= k < |starts| ==> Justified(starts[k]) && starts[k].round < nextRound)
    && (forall j, k :: 0 <= j < k < |starts| ==> starts[j].round != starts[k].round)
  }

  /** The start time of a round is the one logged last. */
  ghost predicate Logged(starts: seq<Start>, r: Round) {
    starts != [] && starts[|starts| - 1].round == r.id && Some(starts[|starts| - 1].startAt) == r.startAt
  }

  ghost predicate RoundIsSound(s: State, r: Round) {
    && r.id < s.nextRound
    && Distinct(r.eligible) && Distinct(r.ready) && (forall id :: id in r.ready ==> id in r.eligible)
    && r.hardDeadlineAt == r.deadlineAt + (PLAYBACK_HARD_FALLBACK_MS - PLAYBACK_READY_WAIT_MS)
    && (r.startAt.None? ==> s.history.lastTick < r.hardDeadlineAt && Unstarted(s.history.starts, r.id))
    && (r.startAt.Some? ==> s.history.lastTick < r.startAt.value
                            <= r.hardDeadlineAt + s.history.maxGap + PLAYBACK_START_LEAD_MS
                            && Logged(s.history.starts, r))
  }

  ghost predicate RoundsAgree(s: State) {
    && StartsAreSound(s.history.starts, s.nextRound)
    && (s.round.Some? ==> RoundIsSound(s, s.round.value))
    && s.history.lastTick <= s.now <= s.history.lastTick + s.history.maxGap
  }

  /** Every timed-out hold began at least 45 s before `time`. */
  ghost predicate LongBefore(timeouts: seq<int>, time: int) {
    forall k :: 0 <= k < |timeouts| ==> timeouts[k] + BUFFER_GATE_MAX_WAIT_MS + BUFFER_GATE_COOLDOWN_MS <= time
  }

  /** The cooldown after a timed-out hold keeps the next hold 45 s away from the start of that one. */
  ghost predicate GateAgrees(s: State) {
    && (s.cooldownUntil.Some? ==> s.cooldownUntil.value <= s.now + BUFFER_GATE_COOLDOWN_MS)
    && (s.history.timeouts != [] ==> s.cooldownUntil.Some? && LongBefore(s.history.timeouts, s.cooldownUntil.value))
    && (s.gate.Some? ==> s.gate.value.startedAt <= s.now && LongBefore(s.history.timeouts, s.gate.value.startedAt))
  }

  /** What holds of every room, freshly restored from storage or not. */
  ghost predicate Inv(s: State) {
    UniqueIds(s.users) && OverlaysAgree(s) && RoundsAgree(s) && GateAgrees(s)
  }

  /** What holds of the clock once the restored flag is gone. */
  ghost predicate Timely(s: State) {
    !s.restored && (s.playing ==> s.anchor.Some?) && ClockAgrees(s)
  }

  /** The invariant of the room is kept, and so is that of its clock. */
  ghost predicate Sound(s: State, r: State) {
    Inv(r) && (Timely(s) ==> Timely(r))
  }

  /** A hold waits for somebody, and only for viewers who are here, buffering and not exhausted. */
  ghost predicate WaitingIsCurrent(s: State) {
    s.gate.Some? ==>
      && s.gate.value.waitingOn != []
      && forall id :: id in s.gate.value.waitingOn ==>
           id !in s.exhausted && exists u :: u in s.users && u.id == id && u.status == Buffering
  }

  /** What may happen to a round while it is held: it loses viewers and gets one start time. */
  ghost predicate Shrunk(p: Round, q: Round) {
    && q.id == p.id && q.video == p.video && q.position == p.position
    && q.deadlineAt == p.deadlineAt && q.hardDeadlineAt == p.hardDeadlineAt
    && (forall id :: id in q.eligible ==> id in p.eligible)
    && (p.startAt.Some? ==> q.startAt == p.startAt)
  }

  /** A round is kept up to shrinking, dropped, or replaced by one with a new id and deadlines counted from now. */
  ghost predicate RoundFrame(s: State, r: State) {
    r.round.Some? ==>
      || (r.round.value.id >= s.nextRound && r.round.value.hardDeadlineAt == s.now + PLAYBACK_HARD_FALLBACK_MS)
      || (s.round.Some? && Shrunk(s.round.value, r.round.value))
  }

  /**
   What a transition inside one handler leaves alone: time, viewers and the log of timed-out
   holds; a hold is dropped or left as it is; exhausted viewers are forgotten only with the source.
   */
  ghost predicate Frame(s: State, r: State) {
    && r.now == s.now && r.users == s.users && r.history.timeouts == s.history.timeouts
    && r.history.maxGap == s.history.maxGap && r.history.lastTick == s.history.lastTick
    && (r.gate.None? || (r.gate == s.gate && r.exhausted == s.exhausted))
    && s.history.sources <= r.history.sources
    && (r.history.sources == s.history.sources ==> r.exhausted == s.exhausted)
    && s.nextRound <= r.nextRound && RoundFrame(s, r) && s.history.starts <= r.history.starts
  }

  /** A transition that keeps the invariant and the frame. */
  ghost predicate Keeps(s: State, r: State) {
    Sound(s, r) && Frame(s, r)
  }

  // ---------------------------------------------------------------- time and the clock

  lemma ElapseKeeps(s: State, now: int)
    requires Inv(s) && now >= s.now
    ensures Sound(s, Elapse(s, now))
  {
    if Timely(s) && s.playing {
      Timestamp.Additive(s.anchor.value, s.now, now, s.position, s.speed);
    }
  }

  lemma EndBoostKeeps(s: State)
    requires Inv(s)
    ensures Keeps(s, EndBoost(s)) && EndBoost(s).nextRound == s.nextRound && EndBoost(s).boost.None?
    ensures EndBoost(s).playing == s.playing && EndBoost(s).round == s.round && EndBoost(s).resume == s.resume
  {
  }

  lemma CancelRoundKeeps(s: State)
    requires Inv(s)
    ensures Keeps(s, CancelRound(s))
  {
  }

  lemma RepositionKeeps(s: State, position: real)
    requires Inv(s) && s.round.None?
    ensures Keeps(s, Reposition(s, position))
  {
  }

  lemma PauseClockKeeps(s: State)
    requires Inv(s)
    ensures Keeps(s, PauseClock(s)) && !PauseClock(s).playing && PauseClock(s).boost.None?
  {
    EndBoostKeeps(s);
  }

  lemma PlayKeeps(s: State)
    requires Inv(s)
    ensures Keeps(s, Play(s)) && Play(s).playing && Play(s).gate.None? && Play(s).round.None?
  {
  }

  lemma PauseKeeps(s: State)
    requires Inv(s)
    ensures Keeps(s, Pause(s, false)) && !Pause(s, false).playing
  {
    PauseClockKeeps(CancelRound(s.(gate := None)));
  }

  lemma SetSourceKeeps(s: State, source: Option<Item>)
    requires Inv(s)
    ensures Keeps(s, SetSource(s, source)) && SetSource(s, source).playing == s.playing
    ensures SetSource(s, source).round.None? && SetSource(s, source).boost.None? && SetSource(s, source).gate.None?
    ensures SetSource(s, source).nextRound == s.nextRound
    ensures SetSource(s, source).history.sources == s.history.sources + 1
  {
  }

  // ---------------------------------------------------------------- the buffer gate

  lemma ReleaseKeeps(s: State)
    requires Inv(s)
    ensures Keeps(s, ReleaseGate(s, false)) && ReleaseGate(s, false).gate.None?
    ensures ReleaseGate(s, false).round == s.round && ReleaseGate(s, false).source == s.source
  {
    if s.gate.Some? { PlayKeeps(s.(gate := None)); }
  }

  /** A hold that ran out: its start is logged, and no hold can begin before the cooldown ends. */
  lemma TimeoutKeeps(s: State)
    requires Inv(s) && s.gate.Some? && s.now - s.gate.value.startedAt >= BUFFER_GATE_MAX_WAIT_MS
    ensures var r := ReleaseGate(s, true);
            && Sound(s, r) && r.gate.None? && r.now == s.now && r.users == s.users && r.nextRound == s.nextRound
            && r.history == s.history.(timeouts := s.history.timeouts + [s.gate.value.startedAt]) && RoundFrame(s, r)
            && r.exhausted == (if |s.users| == 1 then s.exhausted + (set id | id in s.gate.value.waitingOn)
                               else s.exhausted)
  {
    var t := s.history.timeouts + [s.gate.value.startedAt];
    assert LongBefore(t, s.now + BUFFER_GATE_COOLDOWN_MS);
    var released := s.(gate := None, cooldownUntil := Some(s.now + BUFFER_GATE_COOLDOWN_MS),
                       history := s.history.(timeouts := t),
                       exhausted := ReleaseGate(s, true).exhausted);
    assert Sound(s, released);
    PlayKeeps(released);
  }

  /** A new hold pauses the clock where it is. */
  lemma EngageKeeps(s: State, waiting: seq<ClientId>)
    requires Inv(s) && s.playing && s.boost.None? && s.source.Some? && s.gate.None?
    requires s.cooldownUntil.Some? ==> s.now >= s.cooldownUntil.value
    ensures var r := Pause(s.(gate := Some(Gate(s.now, waiting))), true);
            && Sound(s, r) && r.gate == Some(Gate(s.now, waiting)) && r.now == s.now && r.users == s.users
            && r.nextRound == s.nextRound && r.history == s.history && r.exhausted == s.exhausted && r.round.None?
  {
    PauseClockKeeps(CancelRound(s));
    assert PauseClock(CancelRound(s.(gate := Some(Gate(s.now, waiting))))) ==
           PauseClock(CancelRound(s)).(gate := Some(Gate(s.now, waiting)));
  }

  /** The reference clock and the chosen speed are untouched: no position was chosen, no speed set. */
  ghost predicate SameClock(s: State, r: State) {
    r.history.ledger == s.history.ledger && r.history.chosen == s.history.chosen
  }

  /** How far a gate evaluation can reach: at most one hold times out, and only if one was held. */
  ghost predicate GateFrame(s: State, r: State) {
    && r.now == s.now && r.users == s.users && r.nextRound == s.nextRound && RoundFrame(s, r)
    && r.history.sources == s.history.sources && SameClock(s, r)
    && (if s.gate.Some? && s.now - s.gate.value.startedAt >= BUFFER_GATE_MAX_WAIT_MS
        then && r.history.timeouts == s.history.timeouts + [s.gate.value.startedAt] && r.gate.None?
             && r.exhausted == (if |s.users| == 1 then s.exhausted + (set id | id in s.gate.value.waitingOn)
                                else s.exhausted)
        else r.history.timeouts == s.history.timeouts && r.exhausted == s.exhausted)
    && r.history.lastTick == s.history.lastTick && r.history.maxGap == s.history.maxGap
    && s.history.starts <= r.history.starts
  }

  lemma EvaluateKeeps(s: State)
    requires Inv(s)
    ensures Sound(s, EvaluateGate(s)) && GateFrame(s, EvaluateGate(s)) && WaitingIsCurrent(EvaluateGate(s))
  {
    var waiting := Waiting(s.users, s.grants, s.exhausted);
    if s.gate.Some? && s.now - s.gate.value.startedAt >= BUFFER_GATE_MAX_WAIT_MS {
      TimeoutKeeps(s);
    } else {
      ReleaseKeeps(s);
      ReleaseFrame(s);
      if s.gate.None? && s.playing && s.boost.None? && s.source.Some?
        && (s.cooldownUntil.Some? ==> s.now >= s.cooldownUntil.value) {
        EngageKeeps(s, waiting);
      }
    }
  }

  lemma ReleaseFrame(s: State)
    requires Inv(s)
    ensures ReleaseGate(s, false).history == s.history && ReleaseGate(s, false).nextRound == s.nextRound
    ensures ReleaseGate(s, false).exhausted == s.exhausted
  {
  }

  // ---------------------------------------------------------------- the preparation round

  lemma {:induction false} PreparersDistinct(users: seq<Viewer>, grants: Masks)
    requires UniqueIds(users)
    ensures Distinct(Preparers(users, grants))
  {
    if users != [] {
      PreparersDistinct(users[1..], grants);
      var rest := Preparers(users[1..], grants);
      assert forall id :: id in rest ==> exists u :: u in users[1..] && u.id == id;
      assert users[0].id !in rest;
    }
  }

  lemma PrepareKeeps(s: State)
    requires Inv(s)
    ensures Keeps(s, PrepareEmpty(s)) && PrepareEmpty(s).nextRound <= s.nextRound + 1
    ensures PrepareEmpty(s).history == s.history && PrepareEmpty(s).gate == s.gate
    ensures PrepareEmpty(s).playing == s.playing
  {
    PreparersDistinct(s.users, s.grants);
  }

  /** Pausing to wait for a first frame: only correct once the position is the chosen one. */
  lemma HoldKeeps(s: State)
    requires Inv(s) && s.gate.None? && s.round.None? && s.anchor == Some(s.now)
    ensures Keeps(s, HoldForPreparation(s)) && HoldForPreparation(s).nextRound <= s.nextRound + 1
    ensures HoldForPreparation(s).history == s.history
  {
    EndBoostKeeps(s);
    var e := EndBoost(s);
    Timestamp.NoTimeNoProgress(s.now, 0.0, e.speed);
    PrepareKeeps(e.(anchor := None, playing := false, resume := true));
  }

  /** The room starts exactly where it was held, at the agreed time. */
  lemma StartKeeps(s: State)
    requires Inv(s)
    ensures Keeps(s, StartPrepared(s)) && StartPrepared(s).nextRound == s.nextRound
    ensures StartPrepared(s).history.sources == s.history.sources
  {
  }

  lemma ScheduleKeeps(s: State, fallback: Option<Fallback>)
    requires Inv(s)
    requires s.round.Some? && s.round.value.startAt.None? ==>
               var r := s.round.value;
               || AllReady(Live(r.eligible, s.users, s.grants), r.ready)
               || (s.now >= r.deadlineAt && r.ready != [])
               || (s.now >= r.hardDeadlineAt && r.ready == [])
    ensures Keeps(s, ScheduleStart(s, fallback)) && ScheduleStart(s, fallback).nextRound == s.nextRound
    ensures ScheduleStart(s, fallback).history.sources == s.history.sources
    ensures (Timely(s) ==> SameClock(s, ScheduleStart(s, fallback)))
  {
    if s.round.Some? && s.round.value.startAt.None? {
      var r := s.round.value;
      var live := Live(r.eligible, s.users, s.grants);
      if |live| <= 1 {
        StartKeepsNow(s, fallback);
      } else {
        StartKeepsLater(s, fallback);
      }
    }
  }

  lemma StartKeepsLater(s: State, fallback: Option<Fallback>)
    requires Inv(s) && s.round.Some? && s.round.value.startAt.None?
    requires |Live(s.round.value.eligible, s.users, s.grants)| > 1
    requires var r := s.round.value;
             || AllReady(Live(r.eligible, s.users, s.grants), r.ready)
             || (s.now >= r.deadlineAt && r.ready != [])
             || (s.now >= r.hardDeadlineAt && r.ready == [])
    ensures Keeps(s, ScheduleStart(s, fallback)) && ScheduleStart(s, fallback).nextRound == s.nextRound
    ensures ScheduleStart(s, fallback).history.sources == s.history.sources
    ensures Timely(s) ==> SameClock(s, ScheduleStart(s, fallback))
  {
    var r := s.round.value;
    var startAt := s.now + PLAYBACK_START_LEAD_MS;
    var live := Live(r.eligible, s.users, s.grants);
    var start := Start(r.id, s.now, startAt, live, r.ready, r.deadlineAt, r.hardDeadlineAt);
    LogGrows(s.history.starts, start, s.nextRound);
  }

  lemma StartKeepsNow(s: State, fallback: Option<Fallback>)
    requires Inv(s) && s.round.Some? && s.round.value.startAt.None?
    requires |Live(s.round.value.eligible, s.users, s.grants)| <= 1
    requires var r := s.round.value;
             || AllReady(Live(r.eligible, s.users, s.grants), r.ready)
             || (s.now >= r.deadlineAt && r.ready != [])
             || (s.now >= r.hardDeadlineAt && r.ready == [])
    ensures Keeps(s, ScheduleStart(s, fallback)) && ScheduleStart(s, fallback).nextRound == s.nextRound
    ensures ScheduleStart(s, fallback).history.sources == s.history.sources
    ensures Timely(s) ==> SameClock(s, ScheduleStart(s, fallback))
  {
    Timestamp.NoTimeNoProgress(s.now, s.position, s.speed);
    var r := s.round.value;
    var live := Live(r.eligible, s.users, s.grants);
    var start := Start(r.id, s.now, s.now, live, r.ready, r.deadlineAt, r.hardDeadlineAt);
    LogGrows(s.history.starts, start, s.nextRound);
  }

  /** Logging a justified start of a round that has none keeps the log sound. */
  lemma LogGrows(starts: seq<Start>, start: Start, nextRound: nat)
    requires StartsAreSound(starts, nextRound) && Justified(start) && start.round < nextRound
    requires Unstarted(starts, start.round)
    ensures StartsAreSound(starts + [start], nextRound)
  {
  }

  lemma ScheduleIfAllReadyKeeps(s: State)
    requires Inv(s)
    ensures Keeps(s, ScheduleIfAllReady(s)) && ScheduleIfAllReady(s).nextRound == s.nextRound
    ensures ScheduleIfAllReady(s).history.sources == s.history.sources
    ensures (Timely(s) ==> SameClock(s, ScheduleIfAllReady(s)))
  {
    if s.round.Some? && AllReady(Live(s.round.value.eligible, s.users, s.grants), s.round.value.ready) {
      ScheduleKeeps(s, None);
    }
  }

  lemma DropKeeps(s: State, id: ClientId)
    requires Inv(s)
    ensures Keeps(s, DropParticipant(s, id)) && DropParticipant(s, id).nextRound == s.nextRound
    ensures DropParticipant(s, id).history.sources == s.history.sources
    ensures (Timely(s) ==> SameClock(s, DropParticipant(s, id)))
  {
    if s.round.Some? && id in s.round.value.eligible {
      var r := s.round.value;
      var left := Without(r.eligible, id);
      var ready := Without(r.ready, id);
      if left == [] {
        ShrinkKeeps(s, left, ready, r.client, Some(NoneReady));
      } else {
        DropScheduleKeeps(s, left, ready);
      }
    }
  }

  lemma DropScheduleKeeps(s: State, left: seq<ClientId>, ready: seq<ClientId>)
    requires Inv(s) && s.round.Some? && left != []
    requires Distinct(left) && Distinct(ready) && forall id :: id in ready ==> id in left
    requires forall id :: id in left ==> id in s.round.value.eligible
    ensures var shrunk := s.round.value.(eligible := left, ready := ready, client := left[0]);
            var t := ScheduleIfAllReady(s.(round := Some(shrunk)));
            && Keeps(s, t) && t.nextRound == s.nextRound && t.history.sources == s.history.sources
            && (Timely(s) ==> SameClock(s, t))
  {
    var shrunk := s.(round := Some(s.round.value.(eligible := left, ready := ready, client := left[0])));
    ShrinkKeeps(s, left, ready, left[0], s.round.value.fallback);
    assert shrunk == s.(round := Some(s.round.value.(eligible := left, ready := ready, client := left[0],
                                                      fallback := s.round.value.fallback)));
    ScheduleIfAllReadyKeeps(shrunk);
    KeepsKeeps(s, shrunk, ScheduleIfAllReady(shrunk));
  }

  /** A round may lose viewers and reports as long as every report is still one of its viewers'. */
  lemma ShrinkKeeps(
    s: State, eligible: seq<ClientId>, ready: seq<ClientId>, client: ClientId, fallback: Option<Fallback>)
    requires Inv(s) && s.round.Some?
    requires Distinct(eligible) && Distinct(ready) && forall id :: id in ready ==> id in eligible
    requires forall id :: id in eligible ==> id in s.round.value.eligible
    ensures var shrunk := s.round.value.(eligible := eligible, ready := ready, client := client, fallback := fallback);
            Keeps(s, s.(round := Some(shrunk)))
  {
  }

  lemma RefreshKeeps(s: State)
    requires Inv(s)
    ensures Keeps(s, RefreshRound(s)) && RefreshRound(s).nextRound == s.nextRound
    ensures RefreshRound(s).history == s.history
  {
    if s.round.Some? {
      var r := s.round.value;
      var live := Live(r.eligible, s.users, s.grants);
      var ready := Only(r.ready, live);
      CancelRoundKeeps(s);
      ShrinkKeeps(s, live, ready, r.client, Some(NoneReady));
      if live != [] {
        ShrinkKeeps(s, live, ready, live[0], r.fallback);
      }
    }
  }

  lemma FinishKeeps(s: State, id: ClientId, status: Option<PlayerStatus>, prepared: Option<Prepared>)
    requires Inv(s)
    ensures Keeps(s, FinishPreparation(s, id, status, prepared))
    ensures FinishPreparation(s, id, status, prepared).nextRound == s.nextRound
    ensures FinishPreparation(s, id, status, prepared).history.sources == s.history.sources
    ensures Timely(s) ==> SameClock(s, FinishPreparation(s, id, status, prepared))
  {
    if prepared.Some? && Concerns(s, id, prepared.value) {
      if prepared.value.failed || !prepared.value.visible {
        DropKeeps(s, id);
      } else if ProvesReady(s, status, prepared.value) {
        ReportKeeps(s, id);
      }
    }
  }

  lemma ReportKeeps(s: State, id: ClientId)
    requires Inv(s) && s.round.Some? && id in s.round.value.eligible
    ensures var r := s.round.value;
            var t := ScheduleIfAllReady(s.(round := Some(r.(ready := Without(r.ready, id) + [id]))));
            && Keeps(s, t) && t.nextRound == s.nextRound && t.history.sources == s.history.sources
            && (Timely(s) ==> SameClock(s, t))
  {
    var r := s.round.value;
    var ready := Without(r.ready, id) + [id];
    DistinctAppend(Without(r.ready, id), id);
    var t := s.(round := Some(r.(ready := ready)));
    ShrinkKeeps(s, r.eligible, ready, r.client, r.fallback);
    assert t.round.value == r.(eligible := r.eligible, ready := ready, client := r.client, fallback := r.fallback);
    ScheduleIfAllReadyKeeps(t);
    KeepsKeeps(s, t, ScheduleIfAllReady(t));
  }

  lemma HoldEmptyKeeps(s: State, skip: bool)
    requires Inv(s)
    ensures Keeps(s, HoldEmpty(s, skip)) && HoldEmpty(s, skip).history == s.history
    ensures HoldEmpty(s, skip).nextRound == s.nextRound
  {
    PauseClockKeeps(s.(gate := None));
    PausingKeepsHistory(s.(gate := None));
  }

  lemma PausingKeepsHistory(s: State)
    ensures PauseClock(s).history == s.history && PauseClock(s).nextRound == s.nextRound
  {
    EndingKeepsHistory(s);
    var e := EndBoost(s);
    assert Flush(e).history == e.history && Flush(e).nextRound == e.nextRound;
  }

  lemma EndingKeepsHistory(s: State)
    ensures EndBoost(s).history == s.history && EndBoost(s).users == s.users && EndBoost(s).nextRound == s.nextRound
  {
  }

  // ---------------------------------------------------------------- changing the source

  lemma SeekKeeps(s: State, value: real)
    requires Inv(s)
    ensures Keeps(s, SeekRaw(s, value))
  {
    RepositionKeeps(CancelRound(s), value);
  }

  lemma HoldOrPlayKeeps(s: State)
    requires Inv(s) && s.gate.None? && s.round.None? && s.anchor == Some(s.now)
    ensures Keeps(s, HoldOrPlay(s)) && HoldOrPlay(s).nextRound <= s.nextRound + 1
    ensures HoldOrPlay(s).history == s.history
  {
    if CanHold(s) { HoldKeeps(s); } else { PlayKeeps(s); }
  }

  lemma TakeKeeps(s: State, queue: seq<Item>, item: Item, votes: VideoQueue.Votes)
    requires Inv(s) && s.gate.None?
    ensures var t := Reposition(SetSource(s.(queue := queue), Some(item)), item.startAt.GetOr(0.0)).(votes := votes);
            && Keeps(s, t) && t.gate.None? && t.round.None? && t.boost.None? && t.anchor == Some(t.now)
            && t.nextRound == s.nextRound && t.history.sources == s.history.sources + 1 && t.restored == s.restored
  {
    SetSourceKeeps(s.(queue := queue), Some(item));
    RepositionKeeps(SetSource(s.(queue := queue), Some(item)), item.startAt.GetOr(0.0));
  }

  lemma DequeueHeadKeeps(s: State, queue: seq<Item>)
    requires Inv(s) && s.gate.None? && queue != []
    ensures Keeps(s, DequeueFrom(s, queue)) && AtRest(DequeueFrom(s, queue))
    ensures DequeueFrom(s, queue).history.sources == s.history.sources + 1
    ensures DequeueFrom(s, queue).nextRound <= s.nextRound + 1
  {
    var votes := WithoutVotesOf(s.votes, queue[0]);
    TakeKeeps(s, queue[1..], queue[0], votes);
    var taken := Taken(s, queue);
    if !s.restored {
      assert DequeueFrom(s, queue) == HoldOrPlay(taken);
      HoldOrPlayKeeps(taken);
      HoldOrPlayRests(taken);
    }
  }

  lemma ClearSourceKeeps(s: State)
    requires Inv(s) && s.gate.None? && s.source.Some?
    ensures Keeps(s, DequeueFrom(s, [])) && AtRest(DequeueFrom(s, []))
    ensures DequeueFrom(s, []).history.sources == s.history.sources + 1
    ensures DequeueFrom(s, []).nextRound == s.nextRound
  {
    var b := s.(queue := []);
    var e := EndBoost(b);
    var c := CancelRound(e);
    EndBoostKeeps(b);
    CancelRoundKeeps(e);
    KeepsKeeps(b, e, c);
    StoppedKeeps(s, c);
    ClearedAfterCancel(s);
  }

  /** Clearing the source cancels the round anyway, so it may as well be cancelled first. */
  lemma ClearedAfterCancel(s: State)
    requires s.source.Some?
    ensures DequeueFrom(s, [])
            == SetSource(Reposition(CancelRound(EndBoost(s.(queue := []))).(playing := false), 0.0), None)
  {
  }

  lemma StoppedKeeps(s: State, c: State)
    requires Keeps(s.(queue := []), c) && Inv(s) && c.boost.None? && c.gate.None? && c.round.None?
    ensures var r := SetSource(Reposition(c.(playing := false), 0.0), None);
            Keeps(s, r) && AtRest(r) && r.history.sources == c.history.sources + 1 && r.nextRound == c.nextRound
  {
    StopAtStart(c);
    var stopped := Reposition(c.(playing := false), 0.0);
    SetSourceKeeps(stopped, None);
    KeepsKeeps(s.(queue := []), c, stopped);
    KeepsKeeps(s.(queue := []), stopped, SetSource(stopped, None));
  }

  lemma StopAtStart(s: State)
    requires Inv(s) && s.boost.None? && s.gate.None? && s.round.None?
    ensures Keeps(s, Reposition(s.(playing := false), 0.0))
  {
  }

  /** Right after a source was chosen nothing has been played of it, so the speed may change freely. */
  ghost predicate AtRest(s: State) {
    s.boost.None? && (!s.restored && s.playing ==> s.anchor == Some(s.now))
  }

  lemma HoldOrPlayRests(s: State)
    requires AtRest(s)
    ensures AtRest(HoldOrPlay(s))
  {
  }

  lemma RewindKeeps(s: State)
    requires Inv(s) && s.gate.None? && s.source.Some? && s.mode == Dj
    ensures Keeps(s, DequeueNext(s)) && DequeueNext(s).nextRound == s.nextRound
    ensures DequeueNext(s).history.sources == s.history.sources + 1
  {
    SetSourceKeeps(s, Some(s.source.value.Untrimmed()));
    var src := SetSource(s, Some(s.source.value.Untrimmed()));
    RepositionKeeps(src, 0.0);
    PlayKeeps(Reposition(src, 0.0));
  }

  lemma AdvanceKeeps(s: State, requeued: seq<Item>)
    requires Inv(s) && s.gate.None? && (s.source.Some? || requeued != [])
    ensures var d := DequeueFrom(s, requeued);
            var r := d.(speed := 1.0, history := d.history.(chosen := 1.0));
            Keeps(s, r) && r.history.sources == s.history.sources + 1 && r.nextRound <= s.nextRound + 1
  {
    if requeued != [] {
      DequeueHeadKeeps(s, requeued);
    } else {
      ClearSourceKeeps(s);
    }
    DefaultSpeedKeeps(DequeueFrom(s, requeued));
  }

  lemma ReleasedFirst(s: State)
    ensures DequeueNext(ReleaseGate(s, false)) == DequeueNext(s)
  {
    NothingToRelease(ReleaseGate(s, false));
  }

  lemma NothingToRelease(s: State)
    requires s.gate.None?
    ensures ReleaseGate(s, false) == s
  {
  }

  /** Advancing the queue keeps the invariant; a new round only ever comes with a new source. */
  lemma DequeueNextKeeps(s: State)
    requires Inv(s) && (s.source.Some? || s.queue != [])
    ensures Keeps(s, DequeueNext(s))
    ensures DequeueNext(s).history.sources == s.history.sources + 1
    ensures DequeueNext(s).nextRound <= s.nextRound + 1
  {
    ReleaseKeeps(s);
    ReleaseFrame(s);
    ReleasedFirst(s);
    var r := ReleaseGate(s, false);
    assert r.queue == s.queue;
    UngatedDequeueKeeps(r);
  }

  lemma UngatedDequeueKeeps(s: State)
    requires Inv(s) && s.gate.None? && (s.source.Some? || s.queue != [])
    ensures Keeps(s, DequeueNext(s))
    ensures DequeueNext(s).history.sources == s.history.sources + 1
    ensures DequeueNext(s).nextRound <= s.nextRound + 1
  {
    if s.source.Some? && s.mode == Dj {
      RewindKeeps(s);
    } else {
      AdvanceKeeps(s, if s.source.Some? && s.mode == Loop then s.queue + [s.source.value.Untrimmed()] else s.queue);
    }
  }

  lemma DefaultSpeedKeeps(d: State)
    requires Inv(d) && AtRest(d)
    ensures Keeps(d, d.(speed := 1.0, history := d.history.(chosen := 1.0)))
  {
    Timestamp.NoTimeNoProgress(d.now, d.position, d.speed);
  }

  // ---------------------------------------------------------------- the tick

  /** A tick that left no overdue round behind may be recorded as the latest one. */
  lemma TickedKeeps(s: State)
    requires Inv(s)
    requires s.round.Some? ==>
               if s.round.value.startAt.Some? then s.now < s.round.value.startAt.value
               else s.now < s.round.value.hardDeadlineAt
    ensures Sound(s, Ticked(s))
  {
  }

  /** What the round's part of a tick keeps, with the tick recorded. */
  ghost predicate TickedFrom(s: State, r: State) {
    && Sound(s, r) && r.now == s.now && r.users == s.users && RoundFrame(s, r)
    && r.nextRound == s.nextRound && r.history.sources == s.history.sources
    && r.history.timeouts == s.history.timeouts && r.exhausted == s.exhausted
    && (r.gate.None? || r.gate == s.gate)
    && r.history.lastTick == s.now && r.history.maxGap == s.history.maxGap && s.history.starts <= r.history.starts
  }

  lemma KeptThenTicked(s: State, t: State)
    requires Keeps(s, t) && t.nextRound == s.nextRound && t.history.sources == s.history.sources && Sound(t, Ticked(t))
    ensures TickedFrom(s, Ticked(t))
  {
  }

  lemma KeepsKeeps(s: State, t: State, r: State)
    requires Keeps(s, t) && Keeps(t, r)
    ensures Keeps(s, r)
  {
  }

  /** Everything a tick decides about a round: afterwards it is gone, not yet due, or scheduled ahead. */
  lemma TickRoundKeeps(s: State)
    requires Inv(s)
    ensures TickedFrom(s, TickRound(s))
    ensures Timely(s) && (s.round.None? || s.round.value.startAt.None? || s.now < s.round.value.startAt.value) ==>
              SameClock(s, TickRound(s))
  {
    if s.round.None? {
      TickedKeeps(s);
    } else {
      RefreshKeeps(s);
      var r := RefreshRound(s);
      if r.round.None? {
        TickedKeeps(r);
        KeptThenTicked(s, r);
      } else if r.round.value.startAt.Some? {
        TickStarts(r);
        var t := if r.now >= r.round.value.startAt.value then StartPrepared(r) else r;
        KeepsKeeps(s, r, t);
        KeptThenTicked(s, t);
      } else {
        TickDecides(r);
        KeepsKeeps(s, r, Decided(r));
        KeptThenTicked(s, Decided(r));
      }
    }
  }

  lemma TickStarts(r: State)
    requires Inv(r) && r.round.Some? && r.round.value.startAt.Some?
    ensures var t := if r.now >= r.round.value.startAt.value then StartPrepared(r) else r;
            Keeps(r, t) && Sound(t, Ticked(t)) && t.nextRound == r.nextRound && t.history.sources == r.history.sources
  {
    StartKeeps(r);
    TickedKeeps(if r.now >= r.round.value.startAt.value then StartPrepared(r) else r);
  }

  /** A scheduled start is either carried out at once or lies ahead. */
  lemma ScheduledAhead(s: State, fallback: Option<Fallback>)
    requires s.round.Some? && s.round.value.startAt.None?
    ensures var d := ScheduleStart(s, fallback);
            d.round.Some? ==> d.round.value.startAt.Some? && d.now < d.round.value.startAt.value
  {
  }

  lemma TickDecides(r: State)
    requires Inv(r) && r.round.Some? && r.round.value.startAt.None?
    ensures var d := Decided(r);
            && Keeps(r, d) && d.nextRound == r.nextRound && d.history.sources == r.history.sources
            && (Timely(r) ==> SameClock(r, d))
            && (d.round.Some? && d.round.value.startAt.Some? ==> d.now < d.round.value.startAt.value)
            && Sound(d, Ticked(d))
  {
    var r0 := r.round.value;
    var d := Decided(r);
    if AllReady(Live(r0.eligible, r.users, r.grants), r0.ready) {
      ScheduleKeeps(r, None);
      ScheduledAhead(r, None);
    } else if r.now < r0.deadlineAt {
    } else if r0.ready != [] {
      ScheduleKeeps(r, Some(Partial));
      ScheduledAhead(r, Some(Partial));
    } else if r.now >= r0.hardDeadlineAt {
      ScheduleKeeps(r, Some(Forced));
      ScheduledAhead(r, Some(Forced));
    } else {
      ShrinkKeeps(r, r0.eligible, r0.ready, r0.client, Some(NoneReady));
    }
    TickedKeeps(d);
  }
}
