/**
 The room object: its fields are updated in place, setter by setter, as requests, ticks and
 timers arrive. Every method is proved to do what the transition function of the playback
 machine says, so every promise proved about the machine holds of the object.
 */
module Room {
  import opened Util
  import opened RoleLattice
  import opened Video
  import opened RoomModel
  import RoomInvariant
  import RoomRuns
  import Timestamp
  import VideoQueue

  class Room {
    /** The wall clock as handlers read it. */
    var now: int
    var realusers: seq<Viewer>
    var grants: Masks
    var bufferGatePauses: bool
    var queueMode: QueueMode
    var currentSource: Option<Item>
    var queue: seq<Item>
    var votes: VideoQueue.Votes
    var isPlaying: bool
    var playbackPosition: real
    var playbackStart: Option<int>
    var playbackSpeed: real
    var temporarySpeed: Option<Boost>
    var bufferGate: Option<Gate>
    var bufferGateExhausted: set<ClientId>
    var lastPlayAt: Option<int>
    var bufferGateCooldownUntil: Option<int>
    var playbackPreparation: Option<Round>
    var playbackStartTimer: Option<int>
    /** The id the next round will get; ids are never reused. */
    var nextRound: nat
    var resumeOnNextJoin: bool
    var restoredFromStorage: bool
    /** What the fields show, together with the history of the run. */
    ghost var view: State

    /** Every field is the corresponding component of the machine's state. */
    ghost predicate Matches()
      reads this
    {
      view == State(now, realusers, grants, bufferGatePauses, queueMode, currentSource, queue, votes, isPlaying,
        playbackPosition,
            playbackStart, playbackSpeed, temporarySpeed, bufferGate, bufferGateExhausted, lastPlayAt,
            bufferGateCooldownUntil, playbackPreparation, playbackStartTimer, nextRound, resumeOnNextJoin,
            restoredFromStorage, view.history)
    }

    ghost predicate Valid()
      reads this
    {
      Matches() && RoomInvariant.Inv(view) && RoomInvariant.WaitingIsCurrent(view)
    }

    constructor (now: int, grants: Masks, mode: QueueMode, queue: seq<Item>)
      ensures Valid() && RoomInvariant.Timely(view)
      ensures view == State(
        now, [], grants, false, mode, None, queue, map[], false, 0.0, None, 1.0, None, None, {}, None,
        None, None, None, 0, false, false, History(0.0, 1.0, [], [], 0, now, 0))
    {
      this.now, realusers, this.grants, bufferGatePauses, queueMode := now, [], grants, false, mode;
      currentSource, this.queue, votes, isPlaying, playbackPosition := None, queue, map[], false, 0.0;
      playbackStart, playbackSpeed, temporarySpeed, bufferGate := None, 1.0, None, None;
      bufferGateExhausted, lastPlayAt, bufferGateCooldownUntil := {}, None, None;
      playbackPreparation, playbackStartTimer, nextRound := None, None, 0;
      resumeOnNextJoin, restoredFromStorage := false, false;
      view := State(now, [], grants, false, mode, None, queue, map[], false, 0.0, None, 1.0, None, None, {}, None,
                    None, None, None, 0, false, false, History(0.0, 1.0, [], [], 0, now, 0));
    }

    // ------------------------------------------------------------ setters

    method SetBufferGate(gate: Option<Gate>)
      requires Matches()
      modifies this
      ensures Matches() && view == old(view).(gate := gate)
    {
      bufferGate := gate;
      view := view.(gate := gate);
    }

    method SetExhausted(ids: set<ClientId>)
      requires Matches()
      modifies this
      ensures Matches() && view == old(view).(exhausted := ids)
    {
      bufferGateExhausted := ids;
      view := view.(exhausted := ids);
    }

    method SetLastPlayAt(at: Option<int>)
      requires Matches()
      modifies this
      ensures Matches() && view == old(view).(lastPlayAt := at)
    {
      lastPlayAt := at;
      view := view.(lastPlayAt := at);
    }

    method SetCooldown(until: Option<int>)
      requires Matches()
      modifies this
      ensures Matches() && view == old(view).(cooldownUntil := until)
    {
      bufferGateCooldownUntil := until;
      view := view.(cooldownUntil := until);
    }

    method SetPreparation(round: Option<Round>)
      requires Matches()
      modifies this
      ensures Matches() && view == old(view).(round := round)
    {
      playbackPreparation := round;
      view := view.(round := round);
    }

    method SetStartTimer(at: Option<int>)
      requires Matches()
      modifies this
      ensures Matches() && view == old(view).(startTimer := at)
    {
      playbackStartTimer := at;
      view := view.(startTimer := at);
    }

    method SetResume(value: bool)
      requires Matches()
      modifies this
      ensures Matches() && view == old(view).(resume := value)
    {
      resumeOnNextJoin := value;
      view := view.(resume := value);
    }

    method SetRestored(value: bool)
      requires Matches()
      modifies this
      ensures Matches() && view == old(view).(restored := value)
    {
      restoredFromStorage := value;
      view := view.(restored := value);
    }

    method SetQueue(items: seq<Item>)
      requires Matches()
      modifies this
      ensures Matches() && view == old(view).(queue := items)
    {
      queue := items;
      view := view.(queue := items);
    }

    method SetVotes(value: VideoQueue.Votes)
      requires Matches()
      modifies this
      ensures Matches() && view == old(view).(votes := value)
    {
      votes := value;
      view := view.(votes := value);
    }

    method SetUsers(users: seq<Viewer>)
      requires Matches()
      modifies this
      ensures Matches() && view == old(view).(users := users)
    {
      realusers := users;
      view := view.(users := users);
    }

    method SetAnchor(at: Option<int>)
      requires Matches()
      modifies this
      ensures Matches() && view == old(view).(anchor := at)
    {
      playbackStart := at;
      view := view.(anchor := at);
    }

    method SetPosition(value: real)
      requires Matches()
      modifies this
      ensures Matches() && view == old(view).(position := value)
    {
      playbackPosition := value;
      view := view.(position := value);
    }

    method SetRate(value: real)
      requires Matches()
      modifies this
      ensures Matches() && view == old(view).(speed := value)
    {
      playbackSpeed := value;
      view := view.(speed := value);
    }

    method SetBoost(value: Option<Boost>)
      requires Matches()
      modifies this
      ensures Matches() && view == old(view).(boost := value)
    {
      temporarySpeed := value;
      view := view.(boost := value);
    }

    method AssignSource(value: Option<Item>)
      requires Matches()
      modifies this
      ensures Matches() && view == old(view).(source := value)
    {
      currentSource := value;
      view := view.(source := value);
    }

    method AssignPlaying(value: bool)
      requires Matches()
      modifies this
      ensures Matches() && view == old(view).(playing := value)
    {
      isPlaying := value;
      view := view.(playing := value);
    }

    method SetNextRound(id: nat)
      requires Matches()
      modifies this
      ensures Matches() && view == old(view).(nextRound := id)
    {
      nextRound := id;
      view := view.(nextRound := id);
    }

    ghost method Note(history: History)
      requires Matches()
      modifies this
      ensures Matches() && view == old(view).(history := history)
    {
      view := view.(history := history);
    }

    // ------------------------------------------------------------ the clock

    function CalcDurationFromPlaybackStart(): (d: real)
      reads this
      requires Matches()
      ensures d == DurationFromPlaybackStart(view)
    {
      if playbackStart.Some?
      then Timestamp.CalculateCurrentPosition(playbackStart.value, now, 0.0, playbackSpeed)
      else 0.0
    }

    function RealPlaybackPosition(): (p: real)
      reads this
      requires Matches()
      ensures p == RealPosition(view)
    {
      if playbackStart.Some? && isPlaying then playbackPosition + CalcDurationFromPlaybackStart() else playbackPosition
    }

    method FlushPlaybackPosition()
      requires Matches()
      modifies this
      ensures Matches() && view == Flush(old(view))
    {
      SetPosition(RealPlaybackPosition());
      SetAnchor(Some(now));
    }

    method EndTemporaryPlaybackSpeed(restore: bool)
      requires Matches()
      modifies this
      ensures Matches() && view == if restore then EndBoost(old(view)) else old(view).(boost := None)
    {
      if temporarySpeed.None? {
        return;
      }
      var previous := temporarySpeed.value;
      SetBoost(None);
      if restore {
        FlushPlaybackPosition();
        SetRate(previous.previousSpeed);
      }
    }

    method SetIsPlaying(value: bool)
      requires Matches()
      modifies this
      ensures Matches() && view == if value then old(view).(playing := true) else EndBoost(old(view)).(playing := false)
    {
      if !value {
        EndTemporaryPlaybackSpeed(true);
      }
      AssignPlaying(value);
    }

    method CancelPlaybackPreparation()
      requires Matches()
      modifies this
      ensures Matches() && view == CancelRound(old(view))
    {
      SetStartTimer(None);
      if playbackPreparation.Some? {
        SetPreparation(None);
      }
      if resumeOnNextJoin {
        SetResume(false);
      }
    }

    method SetCurrentSource(value: Option<Item>)
      requires Matches()
      modifies this
      ensures Matches() && view == SetSource(old(view), value)
    {
      SetBufferGate(None);
      SetExhausted({});
      SetLastPlayAt(Some(now));
      EndTemporaryPlaybackSpeed(true);
      CancelPlaybackPreparation();
      AssignSource(value);
      Note(view.history.(sources := view.history.sources + 1));
    }

    /** An explicit position, anchored at the present. */
    method MoveTo(position: real)
      requires Matches()
      modifies this
      ensures Matches() && view == Reposition(old(view), position)
    {
      SetPosition(position);
      SetAnchor(Some(now));
      Note(view.history.(ledger := position));
    }

    method PausePlaybackClock()
      requires Matches()
      modifies this
      ensures Matches() && view == PauseClock(old(view))
    {
      EndTemporaryPlaybackSpeed(true);
      if !isPlaying {
        return;
      }
      FlushPlaybackPosition();
      SetAnchor(None);
      SetIsPlaying(false);
    }

    method Play()
      requires Matches()
      modifies this
      ensures Matches() && view == RoomModel.Play(old(view))
    {
      if bufferGate.Some? {
        SetBufferGate(None);
        SetCooldown(Some(now + BUFFER_GATE_COOLDOWN_MS));
      }
      CancelPlaybackPreparation();
      SetRestored(false);
      if isPlaying {
        return;
      }
      SetLastPlayAt(Some(now));
      SetIsPlaying(true);
      SetAnchor(Some(now));
    }

    method Pause(byBufferGate: bool)
      requires Matches()
      modifies this
      ensures Matches() && view == RoomModel.Pause(old(view), byBufferGate)
    {
      if !byBufferGate {
        SetBufferGate(None);
      }
      CancelPlaybackPreparation();
      PausePlaybackClock();
    }

    method SeekRaw(value: real)
      requires Matches()
      modifies this
      ensures Matches() && view == RoomModel.SeekRaw(old(view), value)
    {
      CancelPlaybackPreparation();
      MoveTo(value);
    }

    // ------------------------------------------------------------ the buffer gate

    /** A lone viewer who outwaited a hold is not waited for again. */
    method ExhaustPatience(waitingOn: seq<ClientId>)
      requires Matches()
      modifies this
      ensures Matches() && view == old(view).(exhausted := old(view).exhausted + (set id | id in waitingOn))
    {
      var k := 0;
      while k < |waitingOn|
        invariant 0 <= k <= |waitingOn| && Matches()
        invariant view == old(view).(exhausted := bufferGateExhausted)
        invariant forall id :: id in bufferGateExhausted <==> id in old(view).exhausted || id in waitingOn[..k]
      {
        SetExhausted(bufferGateExhausted + {waitingOn[k]});
        k := k + 1;
      }
      assert bufferGateExhausted == old(view).exhausted + (set id | id in waitingOn);
    }

    method ReleaseBufferGate(timedOut: bool)
      requires Matches()
      modifies this
      ensures Matches() && view == ReleaseGate(old(view), timedOut)
    {
      if bufferGate.None? {
        return;
      }
      var gate := bufferGate.value;
      SetBufferGate(None);
      if timedOut {
        SetCooldown(Some(now + BUFFER_GATE_COOLDOWN_MS));
        Note(view.history.(timeouts := view.history.timeouts + [gate.startedAt]));
        if |realusers| == 1 {
          ExhaustPatience(gate.waitingOn);
        }
      }
      if !isPlaying && |realusers| > 0 && currentSource.Some? && playbackPreparation.None? {
        Play();
      }
    }

    method EvaluateBufferGate()
      requires Matches()
      modifies this
      ensures Matches() && view == EvaluateGate(old(view))
    {
      if bufferGate.Some? && now - bufferGate.value.startedAt >= BUFFER_GATE_MAX_WAIT_MS {
        ReleaseBufferGate(true);
        return;
      }
      var soloViewer := |realusers| == 1;
      if (!bufferGatePauses && !soloViewer) || temporarySpeed.Some? || playbackPreparation.Some?
        || currentSource.None? {
        ReleaseBufferGate(false);
        return;
      }
      var waiting := Waiting(realusers, grants, bufferGateExhausted);
      if waiting == [] {
        ReleaseBufferGate(false);
        return;
      }
      if bufferGate.Some? {
        SetBufferGate(Some(bufferGate.value.(waitingOn := waiting)));
        return;
      }
      if !isPlaying || (lastPlayAt.Some? && now - lastPlayAt.value < BUFFER_GATE_START_GRACE_MS)
         || (bufferGateCooldownUntil.Some? && now < bufferGateCooldownUntil.value) {
        return;
      }
      SetBufferGate(Some(Gate(now, waiting)));
      Pause(true);
    }

    // ------------------------------------------------------------ the preparation round

    method PrepareEmptyRoomPlayback()
      requires Matches()
      modifies this
      ensures Matches() && view == PrepareEmpty(old(view))
    {
      if !resumeOnNextJoin || isPlaying || playbackPreparation.Some? || currentSource.None?
         || !CanPrepareItem(currentSource.value) || playbackPosition < 0.0 {
        return;
      }
      var eligible := Preparers(realusers, grants);
      if eligible == [] {
        return;
      }
      SetPreparation(Some(Round(nextRound, eligible[0], currentSource.value.video, playbackPosition, eligible, [],
                                now + PLAYBACK_READY_WAIT_MS, now + PLAYBACK_HARD_FALLBACK_MS, None, None)));
      SetNextRound(nextRound + 1);
      SetAnchor(None);
    }

    method HoldPlaybackForPreparation()
      requires Matches()
      modifies this
      ensures Matches() && view == HoldForPreparation(old(view))
    {
      EndTemporaryPlaybackSpeed(true);
      SetAnchor(None);
      SetIsPlaying(false);
      SetResume(true);
      PrepareEmptyRoomPlayback();
    }

    method StartPreparedPlayback()
      requires Matches()
      modifies this
      ensures Matches() && view == StartPrepared(old(view))
    {
      if playbackPreparation.None? || playbackPreparation.value.startAt.None? {
        return;
      }
      var preparation := playbackPreparation.value;
      var startAt := preparation.startAt.value;
      if now + 50 < startAt {
        return;
      }
      SetStartTimer(None);
      SetPreparation(None);
      SetResume(false);
      SetPosition(preparation.position);
      SetIsPlaying(true);
      SetAnchor(Some(startAt));
      Note(view.history.(
        ledger := Timestamp.CalculateCurrentPosition(startAt, now, preparation.position, playbackSpeed)));
    }

    method RecordStart(r: Round, live: seq<ClientId>, startAt: int, fallback: Option<Fallback>)
      requires Matches() && view.round == Some(r)
      modifies this
      ensures Matches() && view == old(view).(
        round := Some(r.(fallback := fallback, startAt := Some(startAt))),
        history := old(view).history.(
          starts := old(view).history.starts
                    + [Start(r.id, now, startAt, live, r.ready, r.deadlineAt, r.hardDeadlineAt)]))
    {
      SetPreparation(Some(r.(fallback := fallback, startAt := Some(startAt))));
      Note(view.history.(
        starts := view.history.starts + [Start(r.id, now, startAt, live, r.ready, r.deadlineAt, r.hardDeadlineAt)]));
    }

    method SchedulePlaybackStart(fallback: Option<Fallback>)
      requires Matches()
      modifies this
      ensures Matches() && view == ScheduleStart(old(view), fallback)
    {
      if playbackPreparation.None? || playbackPreparation.value.startAt.Some? {
        return;
      }
      var eligible := Live(playbackPreparation.value.eligible, realusers, grants);
      var startAt := if |eligible| <= 1 then now else now + PLAYBACK_START_LEAD_MS;
      RecordStart(playbackPreparation.value, eligible, startAt, fallback);
      if |eligible| <= 1 {
        StartPreparedPlayback();
      } else {
        SetStartTimer(Some(startAt));
      }
    }

    method ScheduleWhenAllReady()
      requires Matches()
      modifies this
      ensures Matches() && view == ScheduleIfAllReady(old(view))
    {
      if playbackPreparation.Some?
         && AllReady(Live(playbackPreparation.value.eligible, realusers, grants), playbackPreparation.value.ready) {
        SchedulePlaybackStart(None);
      }
    }

    method DropPlaybackParticipant(clientId: ClientId)
      requires Matches()
      modifies this
      ensures Matches() && view == DropParticipant(old(view), clientId)
    {
      if playbackPreparation.None? || clientId !in playbackPreparation.value.eligible {
        return;
      }
      var r := playbackPreparation.value;
      SetPreparation(Some(r.(eligible := Without(r.eligible, clientId), ready := Without(r.ready, clientId))));
      if playbackPreparation.value.eligible == [] {
        SetPreparation(Some(playbackPreparation.value.(fallback := Some(NoneReady))));
        return;
      }
      SetPreparation(Some(playbackPreparation.value.(client := playbackPreparation.value.eligible[0])));
      ScheduleWhenAllReady();
    }

    method RefreshPlaybackPreparation()
      requires Matches()
      modifies this
      ensures Matches() && view == RefreshRound(old(view))
    {
      if playbackPreparation.None? {
        return;
      }
      var r := playbackPreparation.value;
      var eligible := Live(r.eligible, realusers, grants);
      if eligible == r.eligible {
        return;
      }
      var shrunk := r.(eligible := eligible, ready := Only(r.ready, eligible));
      if eligible == [] {
        if Preparers(realusers, grants) == [] {
          CancelPlaybackPreparation();
          return;
        }
        SetPreparation(Some(shrunk.(fallback := Some(NoneReady))));
        return;
      }
      SetPreparation(Some(shrunk.(client := eligible[0])));
    }

    method FinishPlaybackPreparation(clientId: ClientId, status: Option<PlayerStatus>, prepared: Option<Prepared>)
      requires Matches()
      modifies this
      ensures Matches() && view == FinishPreparation(old(view), clientId, status, prepared)
    {
      if playbackPreparation.None? || prepared.None? {
        return;
      }
      var r := playbackPreparation.value;
      var p := prepared.value;
      if p.id != r.id || clientId !in Live(r.eligible, realusers, grants) || currentSource.None?
         || currentSource.value.video != r.video || playbackPosition != r.position || isPlaying {
        return;
      }
      if p.failed || !p.visible {
        DropPlaybackParticipant(clientId);
        return;
      }
      if status != Some(Ready) || !p.firstFrame || p.position.None? || p.position.value < 0.0
         || p.position.value - r.position > 1.0 || p.position.value - r.position < -1.0
         || (p.bufferAhead.Some? && p.bufferAhead.value < ReadyBufferSeconds(r.video.service)) {
        return;
      }
      SetPreparation(Some(r.(ready := Without(r.ready, clientId))));
      SetPreparation(Some(r.(ready := playbackPreparation.value.ready + [clientId])));
      ScheduleWhenAllReady();
    }

    method HoldEmptyPlaybackForJoin(skipForReconnect: bool)
      requires Matches()
      modifies this
      ensures Matches() && view == HoldEmpty(old(view), skipForReconnect)
    {
      if |realusers| > 0 || skipForReconnect || (!isPlaying && bufferGate.None?)
         || currentSource.None? || !CanPrepareItem(currentSource.value) {
        return;
      }
      SetBufferGate(None);
      PausePlaybackClock();
      SetResume(true);
    }

    // ------------------------------------------------------------ the queue

    method HoldOrPlayNewSource()
      requires Matches()
      modifies this
      ensures Matches() && view == HoldOrPlay(old(view))
    {
      if currentSource.Some? && CanPrepareItem(currentSource.value) && Preparers(realusers, grants) != [] {
        HoldPlaybackForPreparation();
      } else if !isPlaying {
        Play();
      }
    }

    method TakeNext(items: seq<Item>)
      requires Matches()
      modifies this
      ensures Matches() && view == DequeueFrom(old(view), items)
    {
      SetQueue(items);
      if |queue| > 0 {
        TakeHead();
        if restoredFromStorage {
          SetAnchor(None);
        } else {
          HoldOrPlayNewSource();
        }
      } else if currentSource.Some? {
        SetIsPlaying(false);
        MoveTo(0.0);
        SetCurrentSource(None);
      }
    }

    method TakeHead()
      requires Matches() && view.queue != []
      modifies this
      ensures Matches() && view == Taken(old(view), old(view).queue)
    {
      var item := queue[0];
      SetQueue(queue[1..]);
      SetCurrentSource(Some(item));
      MoveTo(item.startAt.GetOr(0.0));
      SetVotes(WithoutVotesOf(votes, item));
    }

    /** Dj mode plays the current item again from its beginning. */
    method RepeatCurrent()
      requires Matches() && view.source.Some?
      modifies this
      ensures Matches() && view == Repeated(old(view))
    {
      SetCurrentSource(Some(currentSource.value.Untrimmed()));
      MoveTo(0.0);
      if !isPlaying {
        Play();
      }
    }

    method AdvanceQueue()
      requires Matches()
      modifies this
      ensures Matches() && view == Advance(old(view))
    {
      if currentSource.Some? && queueMode == Dj {
        RepeatCurrent();
        return;
      }
      TakeNext(if currentSource.Some? && queueMode == Loop then queue + [currentSource.value.Untrimmed()] else queue);
      SetRate(1.0);
      Note(view.history.(chosen := 1.0));
    }

    method DequeueNext()
      requires Matches()
      modifies this
      ensures Matches() && view == RoomModel.DequeueNext(old(view))
    {
      ReleaseBufferGate(false);
      AdvanceQueue();
    }

    // ------------------------------------------------------------ the tick

    /** Starts an undecided round that is ready or out of time. */
    method DecidePreparation()
      requires Matches() && view.round.Some?
      modifies this
      ensures Matches() && view == Decided(old(view))
    {
      var r := playbackPreparation.value;
      if AllReady(Live(r.eligible, realusers, grants), r.ready) {
        SchedulePlaybackStart(None);
      } else if now >= r.deadlineAt {
        if |r.ready| > 0 {
          SchedulePlaybackStart(Some(Partial));
        } else if now >= r.hardDeadlineAt {
          SchedulePlaybackStart(Some(Forced));
        } else {
          SetPreparation(Some(r.(fallback := Some(NoneReady))));
        }
      }
    }

    method UpdatePreparation()
      requires Matches()
      modifies this
      ensures Matches() && view == TickRound(old(view))
    {
      if playbackPreparation.Some? {
        RefreshPlaybackPreparation();
        if playbackPreparation.Some? && playbackPreparation.value.startAt.None? {
          DecidePreparation();
        }
        if playbackPreparation.Some? && playbackPreparation.value.startAt.Some?
           && now >= playbackPreparation.value.startAt.value {
          StartPreparedPlayback();
        }
      }
      Note(view.history.(lastTick := now));
    }

    method GetUser(client: ClientId) returns (user: Option<Viewer>)
      ensures user == FindUser(realusers, client)
    {
      var k := 0;
      while k < |realusers|
        invariant 0 <= k <= |realusers|
        invariant FindUser(realusers, client) == FindUser(realusers[k..], client)
      {
        if realusers[k].id == client {
          return Some(realusers[k]);
        }
        k := k + 1;
      }
      return None;
    }

    method UpdateTemporarySpeed()
      requires Matches()
      modifies this
      ensures Matches() && view == TickBoost(old(view))
    {
      if temporarySpeed.Some? {
        var owner := GetUser(temporarySpeed.value.client);
        if owner.None? || !MaySetSpeed(grants, owner.value) {
          EndTemporaryPlaybackSpeed(true);
        }
      }
    }

    method UpdateQueue()
      requires Matches()
      modifies this
      ensures Matches() && view == TickQueue(old(view))
    {
      var currentEnded := false;
      if currentSource.Some? {
        var current := currentSource.value;
        var end := if current.endAt.Some? then current.endAt else current.length;
        currentEnded := isPlaying && !current.isLive && end.Some? && end.value > 0.0
          && RealPlaybackPosition() > end.value;
      }
      if (currentSource.None? && |queue| > 0) || currentEnded {
        DequeueNext();
      }
      if queueMode == Vote {
        SetQueue(VideoQueue.OrderedByVotes(queue, votes));
      }
    }

    method Update(skipTo: Option<real>)
      requires Matches()
      modifies this
      ensures Matches() && view == Tick(old(view), skipTo)
    {
      EvaluateBufferGate();
      UpdatePreparation();
      UpdateTemporarySpeed();
      UpdateQueue();
      if skipTo.Some? && isPlaying {
        SeekRaw(skipTo.value);
      }
    }

    // ------------------------------------------------------------ viewers

    method JoinRoom(viewer: Viewer, reconnect: bool)
      requires Matches()
      modifies this
      ensures Matches() && view == Join(old(view), viewer, reconnect)
    {
      HoldEmptyPlaybackForJoin(reconnect);
      SetUsers(realusers + [viewer]);
      if reconnect && resumeOnNextJoin && |realusers| == 1 && MayPlayPause(grants, viewer)
         && currentSource.Some? && CanPrepareItem(currentSource.value) {
        SetResume(false);
        Play();
      } else {
        PrepareEmptyRoomPlayback();
      }
    }

    /** Splices the first entry of a client out of the list. */
    method SpliceUser(clientId: ClientId)
      requires Matches()
      modifies this
      ensures Matches() && view == old(view).(users := RemoveUser(old(view).users, clientId))
    {
      var i := 0;
      while i < |realusers| && realusers[i].id != clientId
        invariant 0 <= i <= |realusers| && realusers == old(realusers) && view == old(view) && Matches()
        invariant forall j :: 0 <= j < i ==> realusers[j].id != clientId
      {
        i := i + 1;
      }
      RoomRuns.RemovedAt(realusers, i, clientId);
      if i < |realusers| {
        SetUsers(realusers[..i] + realusers[i + 1..]);
      }
    }

    /** The last viewer is gone: the room stops and remembers whether to resume. */
    method HoldEmptiedRoom()
      requires Matches()
      modifies this
      ensures Matches() && view == Emptied(old(view))
    {
      var shouldResume := isPlaying || bufferGate.Some? || playbackPreparation.Some? || resumeOnNextJoin;
      ReleaseBufferGate(false);
      PausePlaybackClock();
      CancelPlaybackPreparation();
      SetResume(shouldResume && currentSource.Some? && CanPrepareItem(currentSource.value));
    }

    method SettleAfterLeave(clientId: ClientId)
      requires Matches()
      modifies this
      ensures Matches() && view == AfterLeave(old(view), clientId)
    {
      if |realusers| == 0 {
        HoldEmptiedRoom();
      } else if playbackPreparation.Some? && clientId in playbackPreparation.value.eligible {
        CancelPlaybackPreparation();
        SetResume(true);
        PrepareEmptyRoomPlayback();
      }
    }

    method DropViewer(clientId: ClientId)
      requires Matches()
      modifies this
      ensures Matches() && view == Gone(old(view), clientId)
    {
      if queueMode == Vote {
        SetVotes(WithoutVoter(votes, clientId));
      }
      SpliceUser(clientId);
    }

    method LeaveRoom(clientId: ClientId)
      requires Matches()
      modifies this
      ensures Matches() && view == Leave(old(view), clientId)
    {
      if temporarySpeed.Some? && temporarySpeed.value.client == clientId {
        EndTemporaryPlaybackSpeed(true);
      }
      var removed := GetUser(clientId);
      if removed.None? {
        return;
      }
      DropViewer(clientId);
      SettleAfterLeave(clientId);
      EvaluateBufferGate();
    }

    /** Writes a status into the first entry of a client. */
    method SetStatus(clientId: ClientId, status: PlayerStatus)
      requires Matches()
      modifies this
      ensures Matches() && view == old(view).(users := WithStatus(old(view).users, clientId, status))
    {
      var i := 0;
      while i < |realusers| && realusers[i].id != clientId
        invariant 0 <= i <= |realusers| && realusers == old(realusers) && view == old(view) && Matches()
        invariant forall j :: 0 <= j < i ==> realusers[j].id != clientId
      {
        i := i + 1;
      }
      RoomRuns.StatusAt(realusers, i, clientId, status);
      if i < |realusers| {
        SetUsers(realusers[i := realusers[i].(status := status)]);
      }
    }

    method UpdateUser(clientId: ClientId, status: Option<PlayerStatus>, prepared: Option<Prepared>)
      requires Matches()
      modifies this
      ensures Matches() && view == RoomModel.UpdateUser(old(view), clientId, status, prepared)
    {
      var user := GetUser(clientId);
      if user.Some? {
        if status.Some? {
          SetStatus(clientId, status.value);
          if status.value != Buffering {
            SetExhausted(bufferGateExhausted - {clientId});
          }
        }
        FinishPlaybackPreparation(clientId, status, prepared);
      }
      EvaluateBufferGate();
    }

    // ------------------------------------------------------------ other requests

    method SwitchToSource(items: seq<Item>, target: Item)
      requires Matches()
      modifies this
      ensures Matches() && view == SwitchTo(old(view), items, target)
    {
      SetQueue(items);
      SetCurrentSource(Some(target));
      MoveTo(0.0);
      HoldOrPlayNewSource();
    }

    method FireStartTimer()
      requires Matches()
      modifies this
      ensures Matches() && view == RoomModel.Handle(old(view), StartTimer)
    {
      if playbackStartTimer.Some? {
        StartPreparedPlayback();
      }
    }

    method FireLeaseTimer()
      requires Matches()
      modifies this
      ensures Matches() && view == RoomModel.Handle(old(view), LeaseTimer)
    {
      if temporarySpeed.Some? && now >= temporarySpeed.value.leaseUntil {
        EndTemporaryPlaybackSpeed(true);
      }
    }

    method Skip()
      requires Matches()
      modifies this
      ensures Matches() && view == RoomModel.Skip(old(view))
    {
      if currentSource.Some? {
        DequeueNext();
      }
    }

    method Seek(value: real)
      requires Matches()
      modifies this
      ensures Matches() && view == RoomModel.Seek(old(view), value)
    {
      if 0.0 <= value <= MAX_SEEK_SECONDS {
        SeekRaw(value);
      }
    }

    method PlayNow(item: Item)
      requires Matches()
      modifies this
      ensures Matches() && view == RoomModel.PlayNow(old(view), item)
    {
      if currentSource.Some? && currentSource.value.video == item.video {
        return;
      }
      var at := VideoQueue.FindIndex(queue, item.video);
      if at < 0 && |queue| >= VideoQueue.MAX_QUEUE_ITEMS {
        return;
      }
      var videoToPlay := if at >= 0 then queue[at] else item;
      var evicted := if at >= 0 then VideoQueue.RemoveAt(queue, at) else queue;
      if currentSource.Some? {
        var current := currentSource.value.(startAt := Some(RealPlaybackPosition()));
        if |evicted| + 1 > VideoQueue.MAX_QUEUE_ITEMS {
          SetQueue(evicted);
          AssignSource(Some(current));
          return;
        }
        evicted := [current] + evicted;
      }
      SwitchToSource(evicted, videoToPlay);
    }

    method SetPlaybackSpeed(speed: real)
      requires Matches()
      modifies this
      ensures Matches() && view == SetSpeed(old(view), speed)
    {
      if speed < 0.25 || speed > 4.0 {
        return;
      }
      EndTemporaryPlaybackSpeed(false);
      FlushPlaybackPosition();
      SetRate(speed);
      Note(view.history.(chosen := speed));
    }

    method DoubleSpeed(client: ClientId, gesture: string)
      requires Matches()
      modifies this
      ensures Matches() && view == Boosted(old(view), client, gesture)
    {
      FlushPlaybackPosition();
      SetBoost(Some(Boost(client, gesture, playbackSpeed, now + TEMPORARY_PLAYBACK_SPEED_LEASE_MS)));
      SetRate(TEMPORARY_PLAYBACK_SPEED);
    }

    method StartTemporaryPlaybackSpeed(client: ClientId, gesture: string, video: VideoId)
      requires Matches()
      modifies this
      ensures Matches() && view == StartBoost(old(view), client, gesture, video)
    {
      var user := GetUser(client);
      if user.None? || !MaySetSpeed(grants, user.value) {
        return;
      }
      if (!isPlaying && bufferGate.None?) || currentSource.None? || currentSource.value.length.None?
         || currentSource.value.length.value <= 0.0 || currentSource.value.video != video || temporarySpeed.Some? {
        return;
      }
      ReleaseBufferGate(false);
      if isPlaying {
        DoubleSpeed(client, gesture);
      }
    }

    method ContinueTemporaryPlaybackSpeed(client: ClientId, gesture: string, stop: bool)
      requires Matches()
      modifies this
      ensures Matches()
      ensures view == if stop then StopBoost(old(view), client, gesture) else RenewBoost(old(view), client, gesture)
    {
      var user := GetUser(client);
      if user.None? {
        return;
      }
      var ownsGesture := temporarySpeed.Some? && temporarySpeed.value.client == client
        && temporarySpeed.value.gesture == gesture;
      if stop {
        if ownsGesture {
          EndTemporaryPlaybackSpeed(true);
        }
        return;
      }
      if MaySetSpeed(grants, user.value) && ownsGesture {
        SetBoost(Some(temporarySpeed.value.(leaseUntil := now + TEMPORARY_PLAYBACK_SPEED_LEASE_MS)));
      }
    }

    method UndoSkip(video: Item, prevPosition: real)
      requires Matches()
      modifies this
      ensures Matches() && view == RoomModel.UndoSkip(old(view), video, prevPosition)
    {
      if currentSource.Some? && VideoQueue.FindIndex(queue, currentSource.value.video) < 0 {
        if |queue| + 1 > VideoQueue.MAX_QUEUE_ITEMS {
          return;
        }
        SetQueue([currentSource.value] + queue);
      }
      SetCurrentSource(Some(video));
      MoveTo(prevPosition);
    }

    method CastVote(client: ClientId, item: Item, add: bool)
      requires Matches()
      modifies this
      ensures Matches() && view == RoomModel.CastVote(old(view), client, item, add)
    {
      if VideoQueue.FindIndex(queue, item.video) < 0 {
        return;
      }
      var key := item.VoteKey();
      if key in votes {
        if add {
          SetVotes(votes[key := votes[key] + {client}]);
        } else {
          SetVotes(votes[key := votes[key] - {client}]);
        }
      } else if add {
        SetVotes(votes[key := {client}]);
      }
    }

    // ------------------------------------------------------------ the event loop

    /** One atomic step of the server: time passes, then one handler runs to completion. */
    method Handle(at: int, e: Event)
      requires Valid() && at >= now && RoomRuns.Legal(view, e)
      modifies this
      ensures Valid() && view == Step(old(view), at, e) && RoomInvariant.Sound(old(view), view)
    {
      now := at;
      view := Elapse(view, at);
      RoomInvariant.ElapseKeeps(old(view), at);
      RoomRuns.HandleKeeps(view, e);
      Dispatch(e);
    }

    method ApplySettings(mode: QueueMode, pauses: bool, newGrants: Masks)
      requires Matches()
      modifies this
      ensures Matches() && view == EvaluateGate(old(view).(mode := mode, gatePauses := pauses, grants := newGrants))
    {
      queueMode, bufferGatePauses, grants := mode, pauses, newGrants;
      view := view.(mode := mode, gatePauses := pauses, grants := newGrants);
      EvaluateBufferGate();
    }

    method FollowViewers(e: Event)
      requires Matches() && (e.HoldEmptyEvent? || e.JoinEvent? || e.LeaveEvent? || e.UpdateUserEvent?)
      modifies this
      ensures Matches() && view == RoomModel.Handle(old(view), e)
    {
      match e
      case HoldEmptyEvent(reconnect) => HoldEmptyPlaybackForJoin(reconnect);
      case JoinEvent(viewer, reconnect) => JoinRoom(viewer, reconnect);
      case LeaveEvent(client) => LeaveRoom(client);
      case UpdateUserEvent(client, status, prepared) => UpdateUser(client, status, prepared);
    }

    method ControlPlayback(e: Event)
      requires Matches() && (e.PlayEvent? || e.PauseEvent? || e.SkipEvent? || e.SeekEvent? || e.PlayNowEvent?)
      modifies this
      ensures Matches() && view == RoomModel.Handle(old(view), e)
    {
      match e
      case PlayEvent => Play();
      case PauseEvent => Pause(false);
      case SkipEvent => Skip();
      case SeekEvent(value) => Seek(value);
      case PlayNowEvent(item) => PlayNow(item);
    }

    method ControlSpeed(e: Event)
      requires Matches() && (e.SpeedEvent? || e.StartBoostEvent? || e.RenewBoostEvent? || e.StopBoostEvent?)
      modifies this
      ensures Matches() && view == RoomModel.Handle(old(view), e)
    {
      match e
      case SpeedEvent(speed) => SetPlaybackSpeed(speed);
      case StartBoostEvent(client, gesture, video) => StartTemporaryPlaybackSpeed(client, gesture, video);
      case RenewBoostEvent(client, gesture) => ContinueTemporaryPlaybackSpeed(client, gesture, false);
      case StopBoostEvent(client, gesture) => ContinueTemporaryPlaybackSpeed(client, gesture, true);
    }

    method Dispatch(e: Event)
      requires Matches()
      modifies this
      ensures Matches() && view == RoomModel.Handle(old(view), e)
    {
      match e
      case TickEvent(skipTo) => Update(skipTo);
      case StartTimer => FireStartTimer();
      case LeaseTimer => FireLeaseTimer();
      case HoldEmptyEvent(_) | JoinEvent(_, _) | LeaveEvent(_) | UpdateUserEvent(_, _, _) => FollowViewers(e);
      case PlayEvent | PauseEvent | SkipEvent | SeekEvent(_) | PlayNowEvent(_) => ControlPlayback(e);
      case SpeedEvent(_) | StartBoostEvent(_, _, _) | RenewBoostEvent(_, _) | StopBoostEvent(_, _) => ControlSpeed(e);
      case UndoSkipEvent(item, prevPosition) => UndoSkip(item, prevPosition);
      case UndoAddEvent => SetCurrentSource(None);
      case EditQueue(items) => SetQueue(items);
      case VoteEvent(client, item, add) => CastVote(client, item, add);
      case Settings(newMode, newGatePauses, newGrants) =>
        ApplySettings(newMode, newGatePauses, newGrants);
      case Promote(client, role) => SetUsers(WithRole(realusers, client, role));
    }
  }
}
