/**
 Handlers and runs of the playback machine: every handler keeps the invariant, so it holds
 in every reachable state, and the promises of the room are read off it.
 */
module RoomRuns {
  import opened Util
  import opened Video
  import opened RoleLattice
  import opened RoomModel
  import opened RoomInvariant
  import Timestamp
  import VideoQueue

  /** Rounds are only created for a new source or in exchange for a viewer who left. */
  ghost predicate Budget(s: State, r: State) {
    && s.history.sources <= r.history.sources
    && r.nextRound + |r.users| <= s.nextRound + |s.users| + (r.history.sources - s.history.sources)
  }

  /** The same viewer is alone and buffering before and after, on the same source. */
  ghost predicate SameSoloViewer(s: State, r: State) {
    && |s.users| == 1 && |r.users| == 1 && s.users[0].id == r.users[0].id
    && s.users[0].status == Buffering && r.users[0].status == Buffering
    && r.history.sources == s.history.sources
  }

  /** Holds that ran out so far, plus the one a lone viewer still has left. */
  ghost function Patience(s: State): nat
    requires |s.users| == 1
  {
    |s.history.timeouts| + if s.users[0].id in s.exhausted then 0 else 1
  }

  ghost predicate SoloKept(s: State, r: State) {
    SameSoloViewer(s, r) && WaitingIsCurrent(s) ==> Patience(r) <= Patience(s)
  }

  /** What a whole handler keeps. */
  ghost predicate Handled(s: State, r: State) {
    Sound(s, r) && r.now == s.now && (WaitingIsCurrent(s) ==> WaitingIsCurrent(r)) && Budget(s, r)
    && s.nextRound <= r.nextRound && RoundFrame(s, r) && r.history.maxGap == s.history.maxGap && SoloKept(s, r)
    && s.history.starts <= r.history.starts
  }

  lemma FrameKeepsWaiting(s: State, r: State)
    requires Frame(s, r) && WaitingIsCurrent(s)
    ensures WaitingIsCurrent(r)
  {
  }

  lemma KeptIsHandled(s: State, r: State)
    requires Keeps(s, r) && r.nextRound <= s.nextRound + (r.history.sources - s.history.sources)
    ensures Handled(s, r)
  {
    if WaitingIsCurrent(s) { FrameKeepsWaiting(s, r); }
  }

  lemma ThenEvaluated(s: State, t: State)
    requires Sound(s, t) && t.now == s.now && Budget(s, t) && s.nextRound <= t.nextRound && RoundFrame(s, t)
    requires t.history.maxGap == s.history.maxGap && s.history.starts <= t.history.starts
    requires SameSoloViewer(s, t) && WaitingIsCurrent(s) ==> WaitingIsCurrent(t) && Patience(t) <= Patience(s)
    ensures Handled(s, EvaluateGate(t))
  {
    EvaluateKeeps(t);
    if SameSoloViewer(s, t) && WaitingIsCurrent(s) {
      EvaluationCostsPatience(t);
    }
  }

  /** When a lone viewer's hold runs out, it is that viewer who is exhausted. */
  lemma EvaluationCostsPatience(t: State)
    requires Inv(t) && WaitingIsCurrent(t) && |t.users| == 1
    ensures Patience(EvaluateGate(t)) <= Patience(t)
  {
    EvaluateKeeps(t);
    if t.gate.Some? && t.now - t.gate.value.startedAt >= BUFFER_GATE_MAX_WAIT_MS {
      var id := t.gate.value.waitingOn[0];
      assert id in t.gate.value.waitingOn;
      assert id == t.users[0].id;
    }
  }

  // ---------------------------------------------------------------- the tick

  lemma TickBoostKeeps(s: State)
    requires Inv(s)
    ensures Keeps(s, TickBoost(s)) && TickBoost(s).nextRound == s.nextRound
  {
    EndBoostKeeps(s);
  }

  lemma KeepsTwice(s: State, t: State, r: State)
    requires Keeps(s, t) && Keeps(t, r)
    requires t.nextRound <= s.nextRound + (t.history.sources - s.history.sources)
    requires r.nextRound <= t.nextRound + (r.history.sources - t.history.sources)
    ensures Keeps(s, r) && r.nextRound <= s.nextRound + (r.history.sources - s.history.sources)
  {
  }

  lemma EditedQueueKeeps(s: State, queue: seq<Item>)
    requires Inv(s)
    ensures Keeps(s, s.(queue := queue))
  {
  }

  lemma TickQueueKeeps(s: State)
    requires Inv(s)
    ensures Keeps(s, TickQueue(s))
    ensures TickQueue(s).nextRound <= s.nextRound + (TickQueue(s).history.sources - s.history.sources)
  {
    var advance := (s.source.None? && s.queue != []) || Ended(s);
    if advance { DequeueNextKeeps(s); }
    var d := if advance then DequeueNext(s) else s;
    var ordered := VideoQueue.OrderedByVotes(d.queue, d.votes);
    EditedQueueKeeps(d, ordered);
    KeepsTwice(s, d, d.(queue := ordered));
  }

  lemma AfterTickRoundKeeps(s: State, skipTo: Option<real>)
    requires Inv(s)
    ensures var q := TickQueue(TickBoost(s));
            var r := if skipTo.Some? && q.playing then SeekRaw(q, skipTo.value) else q;
            Keeps(s, r) && r.nextRound <= s.nextRound + (r.history.sources - s.history.sources)
  {
    TickBoostKeeps(s);
    TickQueueKeeps(TickBoost(s));
    KeepsTwice(s, TickBoost(s), TickQueue(TickBoost(s)));
    var q := TickQueue(TickBoost(s));
    if skipTo.Some? && q.playing {
      SeekKeeps(q, skipTo.value);
      KeepsTwice(s, q, SeekRaw(q, skipTo.value));
    }
  }

  lemma TickHandled(s: State, skipTo: Option<real>)
    requires Inv(s)
    ensures Handled(s, Tick(s, skipTo)) && Tick(s, skipTo).history.lastTick == s.now
  {
    EvaluateKeeps(s);
    var e := EvaluateGate(s);
    TickRoundKeeps(e);
    var t := TickRound(e);
    AfterTickRoundKeeps(t, skipTo);
    if |s.users| == 1 && WaitingIsCurrent(s) { EvaluationCostsPatience(s); }
    TickedHandled(s, e, t, Tick(s, skipTo));
  }

  /** The parts of a tick, one after the other. */
  lemma TickedHandled(s: State, e: State, t: State, r: State)
    requires Sound(s, e) && GateFrame(s, e) && WaitingIsCurrent(e) && TickedFrom(e, t) && Keeps(t, r)
    requires r.nextRound <= t.nextRound + (r.history.sources - t.history.sources)
    requires |s.users| == 1 && WaitingIsCurrent(s) ==> Patience(e) <= Patience(s)
    ensures Handled(s, r) && r.history.lastTick == s.now
  {
    assert WaitingIsCurrent(t);
    FrameKeepsWaiting(t, r);
  }

  // ---------------------------------------------------------------- viewers

  /** Splicing out the first entry of a client is what removing that client means. */
  lemma {:induction false} RemovedAt(users: seq<Viewer>, at: nat, id: ClientId)
    requires at <= |users| && (forall j :: 0 <= j < at ==> users[j].id != id) && (at < |users| ==> users[at].id == id)
    ensures RemoveUser(users, id) == if at < |users| then users[..at] + users[at + 1..] else users
  {
    if at > 0 {
      RemovedAt(users[1..], at - 1, id);
      assert users == [users[0]] + users[1..];
    }
  }

  /** Overwriting the status of the first entry of a client is what updating that client means. */
  lemma {:induction false} StatusAt(users: seq<Viewer>, at: nat, id: ClientId, status: PlayerStatus)
    requires at <= |users| && (forall j :: 0 <= j < at ==> users[j].id != id) && (at < |users| ==> users[at].id == id)
    ensures WithStatus(users, id, status) == if at < |users| then users[at := users[at].(status := status)] else users
  {
    if at > 0 {
      StatusAt(users[1..], at - 1, id, status);
      assert users == [users[0]] + users[1..];
    }
  }

  lemma HeadIsUnique(users: seq<Viewer>)
    requires UniqueIds(users) && users != []
    ensures UniqueIds(users[1..]) && forall u :: u in users[1..] ==> u.id != users[0].id
  {
  }

  lemma NewHeadIsUnique(head: Viewer, rest: seq<Viewer>)
    requires UniqueIds(rest) && forall u :: u in rest ==> u.id != head.id
    ensures UniqueIds([head] + rest)
  {
    assert forall k :: 0 <= k < |rest| ==> rest[k] in rest;
  }

  lemma {:induction false} RemoveKeepsUnique(users: seq<Viewer>, id: ClientId)
    requires UniqueIds(users)
    ensures UniqueIds(RemoveUser(users, id))
  {
    if users != [] {
      HeadIsUnique(users);
      if users[0].id != id {
        RemoveKeepsUnique(users[1..], id);
        NewHeadIsUnique(users[0], RemoveUser(users[1..], id));
      }
    }
  }

  lemma RelabelKeepsUnique(users: seq<Viewer>, relabelled: seq<Viewer>)
    requires UniqueIds(users) && |relabelled| == |users|
    requires forall i :: 0 <= i < |users| ==> relabelled[i].id == users[i].id
    ensures UniqueIds(relabelled)
  {
  }

  ghost predicate IsNew(s: State, id: ClientId) {
    forall u :: u in s.users ==> u.id != id
  }

  lemma AddedKeeps(s: State, viewer: Viewer)
    requires Inv(s) && IsNew(s, viewer.id)
    ensures Sound(s, s.(users := s.users + [viewer]))
    ensures WaitingIsCurrent(s) ==> WaitingIsCurrent(s.(users := s.users + [viewer]))
  {
    assert forall i :: 0 <= i < |s.users| ==> s.users[i] in s.users;
    assert forall u :: u in s.users ==> u in s.users + [viewer];
  }

  /** A join adds one viewer and at most one round. */
  lemma JoinHandled(s: State, viewer: Viewer, reconnect: bool)
    requires Inv(s) && IsNew(s, viewer.id)
    ensures var r := Join(s, viewer, reconnect);
            && Sound(s, r) && r.now == s.now && (WaitingIsCurrent(s) ==> WaitingIsCurrent(r))
            && r.history.sources == s.history.sources && r.history.timeouts == s.history.timeouts
            && r.history.maxGap == s.history.maxGap && s.history.starts <= r.history.starts
            && r.users == s.users + [viewer] && s.nextRound <= r.nextRound <= s.nextRound + 1 && RoundFrame(s, r)
  {
    HoldEmptyKeeps(s, reconnect);
    var h := HoldEmpty(s, reconnect);
    AddedKeeps(h, viewer);
    var j := h.(users := h.users + [viewer]);
    assert Play(j.(resume := false)) == Play(j);
    PlayKeeps(j);
    PrepareKeeps(j);
    if WaitingIsCurrent(s) {
      FrameKeepsWaiting(s, h);
      FrameKeepsWaiting(j, Play(j));
      FrameKeepsWaiting(j, PrepareEmpty(j));
    }
  }

  lemma EmptiedKeeps(s: State)
    requires Inv(s) && s.users == []
    ensures Sound(s, Emptied(s)) && Emptied(s).now == s.now && Budget(s, Emptied(s))
    ensures Emptied(s).users == s.users && Emptied(s).history == s.history && s.nextRound <= Emptied(s).nextRound
    ensures Emptied(s).round.None?
  {
    ReleaseKeeps(s);
    ReleaseFrame(s);
    PauseClockKeeps(ReleaseGate(s, false));
    CancelRoundKeeps(PauseClock(ReleaseGate(s, false)));
    PausingKeepsHistory(ReleaseGate(s, false));
  }

  lemma RebuiltKeeps(s: State)
    requires Inv(s) && s.round.Some?
    ensures var r := PrepareEmpty(CancelRound(s).(resume := true));
            Sound(s, r) && r.now == s.now && r.users == s.users && s.nextRound <= r.nextRound <= s.nextRound + 1
            && r.history == s.history && RoundFrame(s, r)
  {
    CancelRoundKeeps(s);
    PrepareKeeps(CancelRound(s).(resume := true));
  }

  /** The rest of a leave, once the viewer is out of the list. */
  lemma GoneHandled(s: State, gone: State, id: ClientId)
    requires Sound(s, gone) && gone.now == s.now && gone.nextRound == s.nextRound
    requires gone.history == s.history && |gone.users| + 1 == |s.users| && gone.round == s.round
    ensures Handled(s, EvaluateGate(AfterLeave(gone, id)))
  {
    if gone.users == [] {
      EmptiedKeeps(gone);
    } else if gone.round.Some? && id in gone.round.value.eligible {
      RebuiltKeeps(gone);
    }
    ThenEvaluated(s, AfterLeave(gone, id));
  }

  lemma WithoutUserKeeps(s: State, users: seq<Viewer>, votes: VideoQueue.Votes)
    requires Inv(s) && UniqueIds(users)
    ensures Sound(s, s.(users := users, votes := votes))
  {
  }

  lemma LeaveHandled(s: State, id: ClientId)
    requires Inv(s)
    ensures Handled(s, Leave(s, id))
  {
    EndBoostKeeps(s);
    var b := if s.boost.Some? && s.boost.value.client == id then EndBoost(s) else s;
    EndingKeepsHistory(s);
    if FindUser(s.users, id).None? {
      KeptIsHandled(s, b);
    } else {
      GoneKeeps(b, id);
      GoneHandled(s, Gone(b, id), id);
    }
  }

  lemma GoneKeeps(s: State, id: ClientId)
    requires Inv(s) && FindUser(s.users, id).Some?
    ensures var r := Gone(s, id);
            && Sound(s, r) && r.now == s.now && r.nextRound == s.nextRound && r.history == s.history
            && |r.users| + 1 == |s.users| && r.round == s.round
  {
    RemoveKeepsUnique(s.users, id);
    WithoutUserKeeps(s, RemoveUser(s.users, id), Gone(s, id).votes);
  }

  lemma ReportedKeeps(s: State, id: ClientId, status: PlayerStatus)
    requires Inv(s)
    ensures Sound(s, Reported(s, id, status))
  {
    RelabelKeepsUnique(s.users, WithStatus(s.users, id, status));
  }

  lemma UpdateUserHandled(s: State, id: ClientId, status: Option<PlayerStatus>, prepared: Option<Prepared>)
    requires Inv(s)
    ensures Handled(s, UpdateUser(s, id, status, prepared))
  {
    if FindUser(s.users, id).None? {
      ThenEvaluated(s, s);
    } else {
      var u := if status.None? then s else Reported(s, id, status.value);
      if status.Some? { ReportedKeeps(s, id, status.value); }
      FinishKeeps(u, id, status, prepared);
      ThenEvaluated(s, FinishPreparation(u, id, status, prepared));
    }
  }

  lemma PromoteHandled(s: State, id: ClientId, role: Role)
    requires Inv(s)
    ensures Handled(s, s.(users := WithRole(s.users, id, role)))
  {
    RelabelKeepsUnique(s.users, WithRole(s.users, id, role));
    if WaitingIsCurrent(s) { RelabelKeepsWaiting(s, WithRole(s.users, id, role)); }
  }

  lemma RelabelKeepsWaiting(s: State, users: seq<Viewer>)
    requires WaitingIsCurrent(s) && |users| == |s.users|
    requires forall i :: 0 <= i < |users| ==> users[i].id == s.users[i].id && users[i].status == s.users[i].status
    ensures WaitingIsCurrent(s.(users := users))
  {
    forall u | u in s.users ensures exists w :: w in users && w.id == u.id && w.status == u.status {
      var i :| 0 <= i < |s.users| && s.users[i] == u;
      assert users[i] in users;
    }
  }

  // ---------------------------------------------------------------- the other requests

  lemma SwitchHandled(s: State, queue: seq<Item>, target: Item)
    requires Inv(s)
    ensures Handled(s, SwitchTo(s, queue, target))
  {
    SwitchKeeps(s, queue, target);
    KeptIsHandled(s, SwitchTo(s, queue, target));
  }

  lemma SwitchKeeps(s: State, queue: seq<Item>, target: Item)
    requires Inv(s)
    ensures Keeps(s, SwitchTo(s, queue, target))
    ensures SwitchTo(s, queue, target).history.sources == s.history.sources + 1
    ensures SwitchTo(s, queue, target).nextRound <= s.nextRound + 1
  {
    RepositionedKeeps(s, queue, Some(target), 0.0);
    var there := Reposition(SetSource(s.(queue := queue), Some(target)), 0.0);
    HoldOrPlayKeeps(there);
    KeepsKeeps(s, there, HoldOrPlay(there));
  }

  lemma RefusedHandled(s: State, queue: seq<Item>, trimmed: Item)
    requires Inv(s) && s.source.Some? && trimmed.video == s.source.value.video
    ensures Handled(s, s.(queue := queue, source := Some(trimmed)))
  {
    KeptIsHandled(s, s.(queue := queue, source := Some(trimmed)));
  }

  /** The queue without the requested video, and the current item on its way back to the top. */
  lemma PlayChosenHandled(s: State, evicted: seq<Item>, target: Item)
    requires Inv(s)
    ensures Handled(s, PlayChosen(s, evicted, target))
  {
    if s.source.None? {
      SwitchHandled(s, evicted, target);
    } else {
      var current := s.source.value.(startAt := Some(RealPosition(s)));
      if |evicted| + 1 > VideoQueue.MAX_QUEUE_ITEMS {
        RefusedHandled(s, evicted, current);
      } else {
        SwitchHandled(s, [current] + evicted, target);
      }
    }
  }

  lemma PlayNowHandled(s: State, item: Item)
    requires Inv(s)
    ensures Handled(s, PlayNow(s, item))
  {
    var at := VideoQueue.FindIndex(s.queue, item.video);
    PlayChosenHandled(s, if at >= 0 then VideoQueue.RemoveAt(s.queue, at) else s.queue,
                      if at >= 0 then s.queue[at] else item);
    KeptIsHandled(s, s);
  }

  lemma SetSpeedKeeps(s: State, speed: real)
    requires Inv(s)
    ensures Keeps(s, SetSpeed(s, speed)) && SetSpeed(s, speed).nextRound == s.nextRound
  {
    if 0.25 <= speed <= 4.0 {
      FlushedSpeedKeeps(s.(boost := None), speed, s.history.(chosen := speed));
      assert SetSpeed(s, speed) == Flush(s.(boost := None)).(speed := speed, history := s.history.(chosen := speed));
    }
  }

  lemma FlushedSpeedKeeps(s: State, speed: real, history: History)
    requires Inv(s) && s.boost.None? && history == s.history.(chosen := speed)
    ensures var r := Flush(s).(speed := speed, history := history);
            && Inv(r) && Frame(s, r)
            && (!s.restored && (s.playing ==> s.anchor.Some?) && RealPosition(s) == s.history.ledger ==> Timely(r))
  {
    Timestamp.NoTimeNoProgress(s.now, 0.0, speed);
  }

  lemma StartBoostKeeps(s: State, client: ClientId, gesture: string, video: VideoId)
    requires Inv(s)
    ensures Keeps(s, StartBoost(s, client, gesture, video))
    ensures StartBoost(s, client, gesture, video).nextRound == s.nextRound
  {
    ReleaseKeeps(s);
    ReleaseFrame(s);
    Timestamp.NoTimeNoProgress(s.now, 0.0, TEMPORARY_PLAYBACK_SPEED);
  }

  lemma UndoSkipKeeps(s: State, item: Item, prevPosition: real)
    requires Inv(s)
    ensures Keeps(s, UndoSkip(s, item, prevPosition)) && UndoSkip(s, item, prevPosition).nextRound == s.nextRound
  {
    var push := s.source.Some? && VideoQueue.FindIndex(s.queue, s.source.value.video) < 0;
    RepositionedKeeps(s, if push then [s.source.value] + s.queue else s.queue, Some(item), prevPosition);
  }

  lemma RepositionedKeeps(s: State, queue: seq<Item>, source: Option<Item>, position: real)
    requires Inv(s)
    ensures var r := Reposition(SetSource(s.(queue := queue), source), position);
            && Keeps(s, r) && r.nextRound == s.nextRound && r.history.sources == s.history.sources + 1
            && r.gate.None? && r.round.None? && r.boost.None? && r.anchor == Some(r.now)
  {
    var q := s.(queue := queue);
    EditedQueueKeeps(s, queue);
    SetSourceKeeps(q, source);
    RepositionKeeps(SetSource(q, source), position);
    KeepsKeeps(q, SetSource(q, source), Reposition(SetSource(q, source), position));
    KeepsKeeps(s, q, Reposition(SetSource(q, source), position));
  }

  lemma SettingsHandled(s: State, mode: QueueMode, gatePauses: bool, grants: Masks)
    requires Inv(s)
    ensures Handled(s, EvaluateGate(s.(mode := mode, gatePauses := gatePauses, grants := grants)))
  {
    ThenEvaluated(s, s.(mode := mode, gatePauses := gatePauses, grants := grants));
  }

  // ---------------------------------------------------------------- every event

  /** The only demand on the environment: a joining client has an id of its own. */
  ghost predicate Legal(s: State, e: Event) {
    e.JoinEvent? ==> IsNew(s, e.viewer.id)
  }

  lemma StartTimerHandled(s: State)
    requires Inv(s)
    ensures Handled(s, Handle(s, StartTimer))
  {
    StartKeeps(s);
    KeptIsHandled(s, s);
    KeptIsHandled(s, StartPrepared(s));
  }

  lemma BoostsHandled(s: State, e: Event)
    requires Inv(s) && (e.LeaseTimer? || e.RenewBoostEvent? || e.StopBoostEvent?)
    ensures Handled(s, Handle(s, e))
  {
    if e.RenewBoostEvent? {
      RenewKeeps(s, e.client, e.gesture);
      KeptIsHandled(s, RenewBoost(s, e.client, e.gesture));
    } else {
      EndBoostKeeps(s);
      EndingKeepsHistory(s);
      KeptIsHandled(s, s);
      KeptIsHandled(s, EndBoost(s));
    }
  }

  lemma RenewKeeps(s: State, client: ClientId, gesture: string)
    requires Inv(s)
    ensures Keeps(s, RenewBoost(s, client, gesture)) && RenewBoost(s, client, gesture).nextRound == s.nextRound
    ensures RenewBoost(s, client, gesture).history == s.history
  {
  }

  lemma SourceRequestsHandled(s: State, e: Event)
    requires Inv(s) && (e.SkipEvent? || e.SeekEvent? || e.PlayNowEvent? || e.UndoSkipEvent? || e.UndoAddEvent?)
    ensures Handled(s, Handle(s, e))
  {
    match e
    case SkipEvent => SkipHandled(s);
    case SeekEvent(value) => SeekHandled(s, value);
    case PlayNowEvent(item) => PlayNowHandled(s, item);
    case UndoSkipEvent(item, prevPosition) => UndoSkipHandled(s, item, prevPosition);
    case UndoAddEvent => UndoAddHandled(s);
  }

  lemma SeekHandled(s: State, value: real)
    requires Inv(s)
    ensures Handled(s, Seek(s, value))
  {
    SeekKeeps(s, value);
    KeptIsHandled(s, Seek(s, value));
  }

  lemma UndoAddHandled(s: State)
    requires Inv(s)
    ensures Handled(s, SetSource(s, None))
  {
    SetSourceKeeps(s, None);
    KeptIsHandled(s, SetSource(s, None));
  }

  lemma SkipHandled(s: State)
    requires Inv(s)
    ensures Handled(s, Skip(s))
  {
    if s.source.Some? { DequeueNextKeeps(s); }
    KeptIsHandled(s, Skip(s));
  }

  lemma UndoSkipHandled(s: State, item: Item, prevPosition: real)
    requires Inv(s)
    ensures Handled(s, UndoSkip(s, item, prevPosition))
  {
    UndoSkipKeeps(s, item, prevPosition);
    KeptIsHandled(s, UndoSkip(s, item, prevPosition));
  }

  lemma PlayOrPauseHandled(s: State, e: Event)
    requires Inv(s) && (e.PlayEvent? || e.PauseEvent?)
    ensures Handled(s, Handle(s, e))
  {
    PlayKeeps(s);
    PauseKeeps(s);
    PausingKeepsHistory(CancelRound(s.(gate := None)));
    KeptIsHandled(s, Handle(s, e));
  }

  lemma SpeedRequestsHandled(s: State, e: Event)
    requires Inv(s) && (e.SpeedEvent? || e.StartBoostEvent?)
    ensures Handled(s, Handle(s, e))
  {
    match e {
      case SpeedEvent(speed) => SetSpeedKeeps(s, speed);
      case StartBoostEvent(client, gesture, video) => StartBoostKeeps(s, client, gesture, video);
    }
    KeptIsHandled(s, Handle(s, e));
  }

  lemma HoldEmptyHandled(s: State, reconnect: bool)
    requires Inv(s)
    ensures Handled(s, HoldEmpty(s, reconnect))
  {
    HoldEmptyKeeps(s, reconnect);
    KeptIsHandled(s, HoldEmpty(s, reconnect));
  }

  lemma EditQueueHandled(s: State, queue: seq<Item>)
    requires Inv(s)
    ensures Handled(s, s.(queue := queue))
  {
    KeptIsHandled(s, s.(queue := queue));
  }

  lemma VoteHandled(s: State, client: ClientId, item: Item, add: bool)
    requires Inv(s)
    ensures Handled(s, CastVote(s, client, item, add))
  {
    VoteChangesVotes(s, client, item, add);
    KeptIsHandled(s, s.(votes := CastVote(s, client, item, add).votes));
  }

  lemma VoteChangesVotes(s: State, client: ClientId, item: Item, add: bool)
    ensures CastVote(s, client, item, add) == s.(votes := CastVote(s, client, item, add).votes)
  {
  }

  lemma SpeedEventsHandled(s: State, e: Event)
    requires Inv(s)
    requires e.LeaseTimer? || e.SpeedEvent? || e.StartBoostEvent? || e.RenewBoostEvent? || e.StopBoostEvent?
    ensures Handled(s, Handle(s, e))
  {
    if e.SpeedEvent? || e.StartBoostEvent? {
      SpeedRequestsHandled(s, e);
    } else {
      BoostsHandled(s, e);
    }
  }

  lemma StateEventsHandled(s: State, e: Event)
    requires Inv(s) && (e.Settings? || e.Promote? || e.EditQueue? || e.VoteEvent? || e.HoldEmptyEvent?)
    ensures Handled(s, Handle(s, e))
  {
    match e
    case Settings(mode, gatePauses, grants) => SettingsHandled(s, mode, gatePauses, grants);
    case Promote(client, role) => PromoteHandled(s, client, role);
    case HoldEmptyEvent(reconnect) => HoldEmptyHandled(s, reconnect);
    case EditQueue(queue) => EditQueueHandled(s, queue);
    case VoteEvent(client, item, add) => VoteHandled(s, client, item, add);
  }

  lemma PlaybackEventsHandled(s: State, e: Event)
    requires Inv(s)
    requires (e.TickEvent? || e.StartTimer? || e.PlayEvent? || e.PauseEvent? || e.LeaveEvent? || e.UpdateUserEvent?)
    ensures Handled(s, Handle(s, e))
  {
    match e
    case TickEvent(skipTo) => TickHandled(s, skipTo);
    case StartTimer => StartTimerHandled(s);
    case LeaveEvent(client) => LeaveHandled(s, client);
    case UpdateUserEvent(client, status, prepared) => UpdateUserHandled(s, client, status, prepared);
    case _ => PlayOrPauseHandled(s, e);
  }

  lemma EventHandled(s: State, e: Event)
    requires Inv(s) && !e.JoinEvent?
    ensures Handled(s, Handle(s, e))
  {
    if e.SkipEvent? || e.SeekEvent? || e.PlayNowEvent? || e.UndoSkipEvent? || e.UndoAddEvent? {
      SourceRequestsHandled(s, e);
    } else if e.LeaseTimer? || e.SpeedEvent? || e.StartBoostEvent? || e.RenewBoostEvent? || e.StopBoostEvent? {
      SpeedEventsHandled(s, e);
    } else if e.Settings? || e.Promote? || e.EditQueue? || e.VoteEvent? || e.HoldEmptyEvent? {
      StateEventsHandled(s, e);
    } else {
      PlaybackEventsHandled(s, e);
    }
  }

  /** Every handler keeps the invariant, the currency of a hold, and (but for joins) the round budget. */
  lemma HandleKeeps(s: State, e: Event)
    requires Inv(s) && Legal(s, e)
    ensures Sound(s, Handle(s, e)) && Handle(s, e).now == s.now
    ensures WaitingIsCurrent(s) ==> WaitingIsCurrent(Handle(s, e))
    ensures !e.JoinEvent? ==> Budget(s, Handle(s, e))
    ensures s.nextRound <= Handle(s, e).nextRound && RoundFrame(s, Handle(s, e))
    ensures Handle(s, e).history.maxGap == s.history.maxGap && SoloKept(s, Handle(s, e))
    ensures s.history.starts <= Handle(s, e).history.starts
  {
    if e.JoinEvent? {
      JoinHandled(s, e.viewer, e.reconnect);
    } else {
      EventHandled(s, e);
    }
  }
}
